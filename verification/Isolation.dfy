/** What is still queued, counted: how each delivery attempt moves candidates between the outbox, the CRM and
    the discards. */
module Isolation {
  import opened Contracts
  import opened CrmSpec
  import opened CrmLaws
  import opened StoreSpec
  import opened StoreLaws
  import opened Delivery
  import opened DeliveryLaws

  // ---------- sums over the queued messages ----------

  function Sum(run: MemoryRun, keys: seq<Key>, f: Payload -> nat): nat {
    if |keys| == 0 then 0
    else Sum(run, keys[..|keys| - 1], f) + if Queued(run, keys[|keys| - 1]) then f(run.outbox[keys[|keys| - 1]]) else 0
  }

  function Waiting(run: MemoryRun, f: Payload -> nat): nat { Sum(run, run.queue, f) }

  ghost predicate SameAt(a: MemoryRun, b: MemoryRun, k: Key) {
    (Queued(b, k) <==> Queued(a, k)) && (Queued(a, k) ==> b.outbox[k] == a.outbox[k])
  }

  lemma {:induction false} SumSame(a: MemoryRun, b: MemoryRun, keys: seq<Key>, f: Payload -> nat)
    requires forall k :: k in keys ==> SameAt(a, b, k)
    ensures Sum(b, keys, f) == Sum(a, keys, f)
  {
    if |keys| > 0 {
      assert keys[|keys| - 1] in keys;
      SumSame(a, b, keys[..|keys| - 1], f);
    }
  }

  lemma {:induction false} SumDrops(a: MemoryRun, b: MemoryRun, keys: seq<Key>, k: Key, f: Payload -> nat)
    requires NoRepeats(keys) && k in keys && Queued(a, k) && !Queued(b, k)
    requires forall m :: m in keys && m != k ==> SameAt(a, b, m)
    ensures Sum(b, keys, f) + f(a.outbox[k]) == Sum(a, keys, f)
  {
    var last := keys[|keys| - 1];
    var most := keys[..|keys| - 1];
    if last == k {
      SumSame(a, b, most, f);
    } else {
      assert last in keys;
      SumDrops(a, b, most, k, f);
    }
  }

  lemma SumAppends(run: MemoryRun, keys: seq<Key>, k: Key, f: Payload -> nat)
    ensures Sum(run, keys + [k], f) == Sum(run, keys, f) + if Queued(run, k) then f(run.outbox[k]) else 0
  {
    assert (keys + [k])[..|keys|] == keys;
  }

  lemma {:induction false} SumNone(run: MemoryRun, keys: seq<Key>, f: Payload -> nat)
    requires Drained(run)
    ensures Sum(run, keys, f) == 0
  {
    if |keys| > 0 {
      assert !Queued(run, keys[|keys| - 1]);
      SumNone(run, keys[..|keys| - 1], f);
    }
  }

  lemma {:induction false} SumHas(run: MemoryRun, keys: seq<Key>, k: Key, f: Payload -> nat)
    requires k in keys && Queued(run, k)
    ensures f(run.outbox[k]) <= Sum(run, keys, f)
  {
    if keys[|keys| - 1] != k { SumHas(run, keys[..|keys| - 1], k, f); }
  }

  // ---------- one attempt ----------

  datatype Outcome = Postponed | Accepted | Discarded | Divided | Buried

  predicate GoesOn(outcome: Outcome) { outcome != Postponed && outcome != Buried }

  function OutcomeOf(crm: Crm, run: MemoryRun, token: Token, now: nat, k: Key, channel: Channel, refused: bool): Outcome
    requires k in run.outbox
  {
    if channel != Answered then Postponed
    else
      match Call(crm, token, now, k, run.outbox[k], refused).1
      case Done => Accepted
      case Acked(_) => Accepted
      case LeaseLost => Postponed
      case Missing => Postponed
      case Conflict => Buried
      case Rejected => if CanSplit(run, k) then Divided else if CanDiscard(run, k) then Discarded else Buried
  }

  /** What each outcome does to the messages, and to the number of discarded candidates. */
  ghost predicate Shows(a: MemoryRun, b: MemoryRun, k: Key, outcome: Outcome) {
    if outcome == Divided then CanSplit(a, k) && b == Split(a, k)
    else
      && b.outbox == a.outbox && b.queue == a.queue
      && b.delivered == (if outcome == Accepted || outcome == Discarded then a.delivered + {k} else a.delivered)
      && b.dead == (if outcome == Buried then a.dead + {k} else a.dead)
      && b.rejectedInvalid == (if outcome == Discarded then a.rejectedInvalid + 1 else a.rejectedInvalid)
      && (GoesOn(outcome) ==> b.availableAt == a.availableAt) && (outcome == Discarded ==> CanDiscard(a, k))
  }

  lemma AttemptShows(crm: Crm, run: MemoryRun, token: Token, now: nat, k: Key, channel: Channel, refused: bool)
    requires Queued(run, k)
    ensures Shows(run, StoreAfter(crm, run, token, now, k, channel, refused).0, k, OutcomeOf(crm, run, token, now, k, channel, refused))
    ensures StoreAfter(crm, run, token, now, k, channel, refused).1 <==> GoesOn(OutcomeOf(crm, run, token, now, k, channel, refused))
    ensures var outcome := OutcomeOf(crm, run, token, now, k, channel, refused);
      && (outcome == Accepted ==> !refused) && (outcome == Discarded || outcome == Divided ==> refused)
  {
    hide Submit, Split, Backoff, Half;
    SubmitCases(crm, token, now, k, run.outbox[k]);
    var answer := Call(crm, token, now, k, run.outbox[k], refused).1;
    if answer == Done || answer.Acked? { SettleShows(run, k, answer); }
    hide Settle;
  }

  lemma SettleShows(run: MemoryRun, k: Key, answer: Response)
    requires Queued(run, k)
    ensures Shows(run, Settle(run, k, run.outbox[k], answer), k, Accepted)
  {
  }

  ghost predicate Moves(a: MemoryRun, b: MemoryRun, k: Key, f: Payload -> nat, outcome: Outcome) {
    && Queued(a, k)
    && match outcome
       case Postponed => Waiting(b, f) == Waiting(a, f)
       case Divided =>
         CanSplit(a, k)
         && Waiting(b, f) + f(a.outbox[k])
            == Waiting(a, f) + f(Candidates(Half(a.outbox[k].batch, 0))) + f(Candidates(Half(a.outbox[k].batch, 1)))
       case _ => Waiting(b, f) + f(a.outbox[k]) == Waiting(a, f)
  }

  lemma SplitMoves(run: MemoryRun, k: Key, f: Payload -> nat)
    requires Valid(run) && Rooted(run) && Queued(run, k) && CanSplit(run, k)
    ensures Moves(run, Split(run, k), k, f, Divided)
  {
    var after := Split(run, k);
    assert SplitKey(k, 0) !in run.outbox && SplitKey(k, 1) !in run.outbox;
    assert after.queue == run.queue + [SplitKey(k, 0)] + [SplitKey(k, 1)];
    SumAppends(after, run.queue + [SplitKey(k, 0)], SplitKey(k, 1), f);
    SumAppends(after, run.queue, SplitKey(k, 0), f);
    forall m | m in run.queue && m != k ensures SameAt(run, after, m) {}
    SumDrops(run, after, run.queue, k, f);
  }

  lemma OutcomeMoves(a: MemoryRun, b: MemoryRun, k: Key, f: Payload -> nat, outcome: Outcome)
    requires Valid(a) && Rooted(a) && Queued(a, k) && Shows(a, b, k, outcome)
    ensures Moves(a, b, k, f, outcome)
  {
    match outcome
    case Postponed => SumSame(a, b, a.queue, f);
    case Divided => SplitMoves(a, k, f);
    case _ => SumDrops(a, b, a.queue, k, f);
  }

  // ---------- what is counted ----------

  /** Requests that a message can still cost: a batch of n candidates at most 2n - 1. */
  function Weight(p: Payload): nat { if p.Candidates? && |p.batch| > 0 then 2 * |p.batch| - 1 else 1 }

  function Copies(c: Candidate): Payload -> nat {
    (p: Payload) => if p.Candidates? then multiset(p.batch)[c] else 0
  }

  function Invalid(batch: seq<Candidate>, valid: Candidate -> bool): nat {
    if |batch| == 0 then 0
    else Invalid(batch[..|batch| - 1], valid) + if valid(batch[|batch| - 1]) then 0 else 1
  }

  function InvalidIn(valid: Candidate -> bool): Payload -> nat {
    (p: Payload) => if p.Candidates? then Invalid(p.batch, valid) else 0
  }

  /** The CRM rejects a batch exactly when it holds an invalid candidate, and nothing else. */
  ghost predicate RejectsInvalid(refuses: Payload -> bool, valid: Candidate -> bool) {
    forall p :: refuses(p) <==> p.Candidates? && exists c :: c in p.batch && !valid(c)
  }

  lemma {:induction false} InvalidAppends(a: seq<Candidate>, b: seq<Candidate>, valid: Candidate -> bool)
    ensures Invalid(a + b, valid) == Invalid(a, valid) + Invalid(b, valid)
  {
    if |b| == 0 {
      assert a + b == a;
    } else {
      assert (a + b)[..|a + b| - 1] == a + b[..|b| - 1];
      InvalidAppends(a, b[..|b| - 1], valid);
    }
  }

  lemma {:induction false} InvalidNone(batch: seq<Candidate>, valid: Candidate -> bool)
    ensures Invalid(batch, valid) == 0 <==> forall c :: c in batch ==> valid(c)
  {
    if |batch| > 0 { InvalidNone(batch[..|batch| - 1], valid); }
  }

  lemma HalvesJoin(batch: seq<Candidate>, valid: Candidate -> bool)
    ensures Half(batch, 0) + Half(batch, 1) == batch
    ensures multiset(batch) == multiset(Half(batch, 0)) + multiset(Half(batch, 1))
    ensures Invalid(batch, valid) == Invalid(Half(batch, 0), valid) + Invalid(Half(batch, 1), valid)
  {
    assert Half(batch, 0) + Half(batch, 1) == batch;
    InvalidAppends(Half(batch, 0), Half(batch, 1), valid);
  }

  /** The candidates that the attempt gets acknowledged. */
  function Acknowledged(p: Payload, outcome: Outcome): seq<Candidate> {
    if p.Candidates? && outcome == Accepted then p.batch else []
  }

  /** A request uses up weight. */
  lemma OutcomeWeighs(a: MemoryRun, b: MemoryRun, k: Key, outcome: Outcome)
    requires Moves(a, b, k, Weight, outcome)
    ensures Waiting(b, Weight) <= Waiting(a, Weight)
    ensures outcome != Postponed ==> Waiting(b, Weight) < Waiting(a, Weight)
  {
    hide Waiting;
  }

  /** What a rejected or an accepted message holds. */
  lemma Verdicts(a: MemoryRun, k: Key, outcome: Outcome, refuses: Payload -> bool, valid: Candidate -> bool)
    requires Queued(a, k) && RejectsInvalid(refuses, valid)
    requires outcome == Accepted ==> !refuses(a.outbox[k])
    requires outcome == Discarded || outcome == Divided ==> refuses(a.outbox[k])
    requires outcome == Discarded ==> CanDiscard(a, k)
    ensures outcome == Accepted && a.outbox[k].Candidates? ==> forall c :: c in a.outbox[k].batch ==> valid(c)
    ensures outcome == Discarded ==> a.outbox[k].batch == [a.outbox[k].batch[0]] && !valid(a.outbox[k].batch[0])
    ensures outcome == Discarded || outcome == Divided ==> a.outbox[k].Candidates?
  {
  }

  /** Nothing but acknowledgement or a dead letter takes a valid candidate out of the queue. */
  lemma OutcomeConserves(a: MemoryRun, b: MemoryRun, k: Key, outcome: Outcome, refuses: Payload -> bool, valid: Candidate -> bool, c: Candidate)
    requires Moves(a, b, k, Copies(c), outcome) && RejectsInvalid(refuses, valid) && outcome != Buried
    requires outcome == Accepted ==> !refuses(a.outbox[k])
    requires outcome == Discarded || outcome == Divided ==> refuses(a.outbox[k])
    requires outcome == Discarded ==> CanDiscard(a, k)
    ensures valid(c) ==> multiset(Acknowledged(a.outbox[k], outcome))[c] + Waiting(b, Copies(c)) == Waiting(a, Copies(c))
    ensures !valid(c) ==> c !in Acknowledged(a.outbox[k], outcome)
  {
    hide Waiting, Split, Invalid, RejectsInvalid;
    Verdicts(a, k, outcome, refuses, valid);
    if a.outbox[k].Candidates? { HalvesJoin(a.outbox[k].batch, valid); }
    hide Half, CanSplit, CanDiscard, Queued;
  }

  /** Nothing but discarding or a dead letter takes an invalid one out. */
  lemma OutcomeDiscards(a: MemoryRun, b: MemoryRun, k: Key, outcome: Outcome, refuses: Payload -> bool, valid: Candidate -> bool)
    requires Moves(a, b, k, InvalidIn(valid), outcome) && RejectsInvalid(refuses, valid) && outcome != Buried
    requires b.rejectedInvalid == (if outcome == Discarded then a.rejectedInvalid + 1 else a.rejectedInvalid)
    requires outcome == Accepted ==> !refuses(a.outbox[k])
    requires outcome == Discarded || outcome == Divided ==> refuses(a.outbox[k])
    requires outcome == Discarded ==> CanDiscard(a, k)
    ensures b.rejectedInvalid + Waiting(b, InvalidIn(valid)) == a.rejectedInvalid + Waiting(a, InvalidIn(valid))
  {
    hide Waiting, RejectsInvalid, Invalid;
    Verdicts(a, k, outcome, refuses, valid);
    if a.outbox[k].Candidates? {
      HalvesJoin(a.outbox[k].batch, valid);
      InvalidNone(a.outbox[k].batch, valid);
      if outcome == Discarded { InvalidOne(a.outbox[k].batch[0], valid); }
    }
    hide Half, CanSplit, CanDiscard, Queued;
  }

  lemma InvalidOne(c: Candidate, valid: Candidate -> bool)
    ensures Invalid([c], valid) == if valid(c) then 0 else 1
  {
    assert [c][..0] == [];
  }

  lemma ShowsRejected(a: MemoryRun, b: MemoryRun, k: Key, outcome: Outcome)
    requires Shows(a, b, k, outcome)
    ensures b.rejectedInvalid == (if outcome == Discarded then a.rejectedInvalid + 1 else a.rejectedInvalid)
    ensures outcome == Discarded ==> CanDiscard(a, k)
  {
  }

  /** Acknowledged and still queued copies of each valid candidate, and discarded and still queued invalid ones, add
      up to what was queued. */
  ghost predicate Conserved(a: MemoryRun, b: MemoryRun, acked: seq<Candidate>, valid: Candidate -> bool) {
    && (forall c :: valid(c) ==> multiset(acked)[c] + Waiting(b, Copies(c)) == Waiting(a, Copies(c)))
    && (forall c :: c in acked ==> valid(c))
    && b.rejectedInvalid + Waiting(b, InvalidIn(valid)) == a.rejectedInvalid + Waiting(a, InvalidIn(valid))
  }

  lemma ConservesOn(start: MemoryRun, a: MemoryRun, b: MemoryRun, k: Key, acked: seq<Candidate>, outcome: Outcome,
      refuses: Payload -> bool, valid: Candidate -> bool)
    requires Conserved(start, a, acked, valid) && RejectsInvalid(refuses, valid)
    requires Valid(a) && Rooted(a) && Queued(a, k) && Shows(a, b, k, outcome) && outcome != Buried
    requires outcome == Accepted ==> !refuses(a.outbox[k])
    requires outcome == Discarded || outcome == Divided ==> refuses(a.outbox[k])
    ensures Conserved(start, b, acked + Acknowledged(a.outbox[k], outcome), valid)
  {
    ShowsRejected(a, b, k, outcome);
    OutcomeMoves(a, b, k, InvalidIn(valid), outcome);
    OutcomeDiscards(a, b, k, outcome, refuses, valid);
    hide Waiting, RejectsInvalid, Acknowledged, Valid, Rooted;
    forall c
      ensures valid(c) ==> multiset(Acknowledged(a.outbox[k], outcome))[c] + Waiting(b, Copies(c)) == Waiting(a, Copies(c))
      ensures !valid(c) ==> c !in Acknowledged(a.outbox[k], outcome)
    {
      OutcomeMoves(a, b, k, Copies(c), outcome);
      OutcomeConserves(a, b, k, outcome, refuses, valid, c);
    }
    hide Shows, Moves;
  }

  // ---------- when delivery cannot fail ----------

  /** The worker holds the lease until `until`, every queued message is due and not a report, and what the CRM knows of the
      run came from this outbox. */
  ghost predicate Smooth(r: RunId, crm: Crm, run: MemoryRun, token: Token, now: nat, until: nat) {
    && ValidLease(crm.run, token, until)
    && (forall k :: Queued(run, k) ==> Due(run, k, now) && !run.outbox[k].Terminal())
    && (forall k :: k in run.availableAt ==> k in run.outbox)
    && (forall k :: k in run.outbox ==> k.Owner() == r)
    && (forall k: Key :: k.Owner() == r && k in crm.idem ==> k in run.outbox && run.outbox[k] == crm.idem[k])
    && (forall k :: k in crm.idem && crm.idem[k].Candidates? ==> k in crm.results)
  }

  lemma SmoothGoesOn(r: RunId, crm: Crm, run: MemoryRun, token: Token, now: nat, until: nat, at: nat, k: Key, refuses: Payload -> bool,
      valid: Candidate -> bool)
    requires Smooth(r, crm, run, token, now, until) && at <= until && Queued(run, k) && RejectsInvalid(refuses, valid)
    ensures GoesOn(OutcomeOf(crm, run, token, at, k, Answered, refuses(run.outbox[k])))
  {
    var p := run.outbox[k];
    if refuses(p) { assert |p.batch| > 0; }
    hide UpsertAll, ApplyEvents;
  }

  lemma SmoothCrm(crm: Crm, token: Token, at: nat, until: nat, k: Key, p: Payload, refused: bool)
    requires ValidLease(crm.run, token, until) && at <= until && !p.Terminal()
    requires forall m :: m in crm.idem && crm.idem[m].Candidates? ==> m in crm.results
    ensures var after := CrmAfter(crm, token, at, k, p, Answered, refused);
      && ValidLease(after.run, token, until) && (after.idem == crm.idem || after.idem == crm.idem[k := p])
      && forall m :: m in after.idem && after.idem[m].Candidates? ==> m in after.results
  {
    hide UpsertAll, ApplyEvents;
  }

  lemma SmoothStays(r: RunId, crm: Crm, run: MemoryRun, token: Token, now: nat, until: nat, at: nat, k: Key, refused: bool)
    requires Smooth(r, crm, run, token, now, until) && at <= until && Queued(run, k)
    requires GoesOn(OutcomeOf(crm, run, token, at, k, Answered, refused))
    ensures Smooth(r, CrmAfter(crm, token, at, k, run.outbox[k], Answered, refused),
                   StoreAfter(crm, run, token, at, k, Answered, refused).0, token, now, until)
  {
    hide StoreAfter, Submit, OutcomeOf, Split, CrmAfter;
    AttemptShows(crm, run, token, at, k, Answered, refused);
    SmoothCrm(crm, token, at, until, k, run.outbox[k], refused);
    SmoothKeeps(run, StoreAfter(crm, run, token, at, k, Answered, refused).0, k, OutcomeOf(crm, run, token, at, k, Answered, refused));
    hide Shows;
  }

  lemma SplitKeeps(run: MemoryRun, k: Key)
    requires Queued(run, k) && CanSplit(run, k)
    ensures var after := Split(run, k);
      && (forall m :: Queued(after, m) && m in run.outbox ==> Queued(run, m))
      && (forall m :: m in after.outbox && m !in run.outbox ==> after.outbox[m].Candidates? && m.Owner() == k.Owner())
      && (forall m :: m in run.outbox ==> m in after.outbox && after.outbox[m] == run.outbox[m])
      && after.availableAt == run.availableAt
  {
    hide Half;
  }

  lemma SmoothKeeps(a: MemoryRun, b: MemoryRun, k: Key, outcome: Outcome)
    requires Queued(a, k) && Shows(a, b, k, outcome) && GoesOn(outcome)
    ensures forall m :: Queued(b, m) && m in a.outbox ==> Queued(a, m) && b.outbox[m] == a.outbox[m]
    ensures forall m :: m in b.outbox && m !in a.outbox ==> b.outbox[m].Candidates? && m.Owner() == k.Owner()
    ensures forall m :: m in a.outbox ==> m in b.outbox && b.outbox[m] == a.outbox[m]
    ensures b.availableAt == a.availableAt
  {
    if outcome == Divided { SplitKeeps(a, k); }
    hide Split;
  }

  lemma SmoothDrained(r: RunId, crm: Crm, run: MemoryRun, token: Token, now: nat, until: nat, at: nat)
    requires Smooth(r, crm, run, token, now, until) && now <= at && forall k :: !Due(run, k, at)
    ensures Drained(run)
  {
    forall k ensures !Queued(run, k) { assert !Due(run, k, at); }
  }

  /** Everything that the delivery loop needs to know about one attempt. */
  lemma Attempted(r: RunId, start: MemoryRun, crm: Crm, run: MemoryRun, token: Token, from: nat, until: nat, now: nat, k: Key, channel: Channel,
      refuses: Payload -> bool, valid: Candidate -> bool, acked: seq<Candidate>)
    requires Valid(run) && Rooted(run) && Queued(run, k)
    ensures var p := run.outbox[k];
      var (after, more) := StoreAfter(crm, run, token, now, k, channel, refuses(p));
      var outcome := OutcomeOf(crm, run, token, now, k, channel, refuses(p));
      && 1 <= Waiting(run, Weight) && (more ==> Waiting(after, Weight) < Waiting(run, Weight) && after.dead == run.dead)
      && (forall m :: m != k && Queued(run, m) ==> Queued(after, m))
      && (RejectsInvalid(refuses, valid) && Conserved(start, run, acked, valid) && after.dead == run.dead ==>
            Conserved(start, after, acked + Acknowledged(p, outcome), valid))
      && (RejectsInvalid(refuses, valid) && channel == Answered && now <= until && Smooth(r, crm, run, token, from, until) ==>
            more && Smooth(r, CrmAfter(crm, token, now, k, p, channel, refuses(p)), after, token, from, until))
  {
    hide StoreAfter, OutcomeOf, Waiting, Conserved, RejectsInvalid, Smooth, CrmAfter, Valid, Rooted;
    var p := run.outbox[k];
    var after := StoreAfter(crm, run, token, now, k, channel, refuses(p)).0;
    var outcome := OutcomeOf(crm, run, token, now, k, channel, refuses(p));
    AttemptShows(crm, run, token, now, k, channel, refuses(p));
    OutcomeMoves(run, after, k, Weight, outcome);
    OutcomeWeighs(run, after, k, outcome);
    WeighsSomething(run, k);
    ShowsOthers(run, after, k, outcome);
    hide Shows, Moves;
    if RejectsInvalid(refuses, valid) {
      if Conserved(start, run, acked, valid) && outcome != Buried {
        ConservesOn(start, run, after, k, acked, outcome, refuses, valid);
      }
      if channel == Answered && now <= until && Smooth(r, crm, run, token, from, until) {
        SmoothGoesOn(r, crm, run, token, from, until, now, k, refuses, valid);
        SmoothStays(r, crm, run, token, from, until, now, k, refuses(p));
      }
    }
  }

  lemma WeighsSomething(run: MemoryRun, k: Key)
    requires Valid(run) && Queued(run, k)
    ensures 1 <= Waiting(run, Weight)
  {
    assert k in run.queue;
    SumHas(run, run.queue, k, Weight);
  }

  lemma ShowsOthers(a: MemoryRun, b: MemoryRun, k: Key, outcome: Outcome)
    requires Queued(a, k) && Shows(a, b, k, outcome)
    ensures forall m :: m != k && Queued(a, m) ==> Queued(b, m)
    ensures b.dead == a.dead <==> outcome != Buried
  {
  }

  // ---------- one batch ----------

  lemma WaitingOnly(run: MemoryRun, k: Key, f: Payload -> nat)
    requires Valid(run) && Queued(run, k) && forall m :: Queued(run, m) ==> m == k
    ensures Waiting(run, f) == f(run.outbox[k])
  {
    var after := run.(delivered := run.delivered + {k});
    assert k in run.queue;
    SumDrops(run, after, run.queue, k, f);
    SumNone(after, run.queue, f);
  }

  /** When a batch alone is queued and delivery drains the outbox without a dead letter, each valid candidate was
      acknowledged exactly as often as it occurs, and exactly the invalid ones were discarded. */
  lemma BatchIsIsolated(start: MemoryRun, end: MemoryRun, k: Key, acked: seq<Candidate>, valid: Candidate -> bool)
    requires Valid(start) && Queued(start, k) && start.outbox[k].Candidates? && |start.outbox[k].batch| > 0
    requires (forall m :: Queued(start, m) ==> m == k) && Drained(end) && Conserved(start, end, acked, valid)
    ensures forall c :: multiset(acked)[c] == if valid(c) then multiset(start.outbox[k].batch)[c] else 0
    ensures end.rejectedInvalid == start.rejectedInvalid + Invalid(start.outbox[k].batch, valid)
  {
    hide Waiting;
    WaitingOnly(start, k, InvalidIn(valid));
    assert Waiting(end, InvalidIn(valid)) == 0 by { SumNone(end, end.queue, InvalidIn(valid)); WaitingIs(end, InvalidIn(valid)); }
    forall c ensures multiset(acked)[c] == if valid(c) then multiset(start.outbox[k].batch)[c] else 0 {
      WaitingOnly(start, k, Copies(c));
      SumNone(end, end.queue, Copies(c));
      WaitingIs(end, Copies(c));
    }
  }

  lemma BatchCosts(run: MemoryRun, k: Key)
    requires Valid(run) && Queued(run, k) && run.outbox[k].Candidates? && |run.outbox[k].batch| > 0
    requires forall m :: Queued(run, m) ==> m == k
    ensures Waiting(run, Weight) == 2 * |run.outbox[k].batch| - 1
  {
    hide Waiting;
    WaitingOnly(run, k, Weight);
  }

  lemma WaitingIs(run: MemoryRun, f: Payload -> nat)
    ensures Waiting(run, f) == Sum(run, run.queue, f)
  {
  }

  // ---------- what deliveries leave alone ----------

  /** Deliveries change no task and no message, and the CRM forgets no key; what they mark delivered the CRM knows, or
      it was a batch. */
  ghost predicate Follows(start: MemoryRun, run: MemoryRun, known: set<Key>, idem: map<Key, Payload>) {
    && known <= idem.Keys
    && run.tasks == start.tasks && run.order == start.order && run.cap == start.cap
    && (forall k :: k in start.outbox ==> k in run.outbox && run.outbox[k] == start.outbox[k])
    && (forall k :: k in run.outbox ==> k in start.outbox || k.SplitKey?)
    && (forall k :: k in run.delivered ==> k in run.outbox)
    && (forall k :: k in run.delivered ==> k in start.delivered || run.outbox[k].Candidates? || k in idem)
  }

  lemma FollowsOn(start: MemoryRun, known: set<Key>, crm: Crm, run: MemoryRun, token: Token, now: nat, k: Key, channel: Channel, refused: bool)
    requires Follows(start, run, known, crm.idem) && Queued(run, k)
    ensures Follows(start, StoreAfter(crm, run, token, now, k, channel, refused).0, known,
                    CrmAfter(crm, token, now, k, run.outbox[k], channel, refused).idem)
  {
    hide StoreAfter, Submit;
    DeliveryHandles(crm, run, token, now, k, channel, refused);
    AttemptShows(crm, run, token, now, k, channel, refused);
    CrmAfterCases(crm, token, now, k, run.outbox[k], channel, refused);
    ShowsDelivered(run, StoreAfter(crm, run, token, now, k, channel, refused).0, k, OutcomeOf(crm, run, token, now, k, channel, refused));
    hide OutcomeOf, Shows, CrmAfter;
  }

  lemma ShowsDelivered(a: MemoryRun, b: MemoryRun, k: Key, outcome: Outcome)
    requires Queued(a, k) && Shows(a, b, k, outcome)
    ensures b.delivered == if GoesOn(outcome) then a.delivered + {k} else a.delivered
    ensures k in a.outbox && (outcome == Divided || outcome == Discarded ==> a.outbox[k].Candidates?)
  {
  }
}
