/** Who may have the run: it is granted exactly when nobody holds a lease that has not run out. */
module ProtocolGrants {
  import opened Contracts
  import opened CrmSpec
  import opened CrmLaws
  import opened StoreSpec
  import opened Delivery
  import opened DeliveryLaws
  import opened Protocol
  import opened ProtocolSteps
  import Ends = ProtocolTerminal

  /** A pending run has no lease; a run that has lost its lease has ended or was cancelled before it was ever claimed. */
  ghost predicate LeaseFits(run: FakeRun) {
    if run.lease.Some? then run.status == RunRunning || run.status == RunCancelRequested
    else run.status == RunPending || Ends.Closed(run)
  }

  ghost predicate Inv(s: Sys) { Ends.Inv(s) && LeaseFits(s.crm.run) }

  // ---------- what a step can do to the lease ----------

  /** The heartbeats of the machine, with the token they carry. */
  ghost predicate Renews(s: Sys, step: Step, token: Token, seconds: nat) {
    && step.Lease? && (step.lease == Renew(seconds) || step.lease == BeatRun(seconds))
    && step.i in s.agents && s.agents[step.i].pc.Session? && s.agents[step.i].pc.token == token
  }

  predicate Claims(step: Step) { step.Lease? && step.lease.ClaimRun? }

  /** The lease stays; its holder renews it before it runs out; another worker claims it after it ran out; or the run ends. */
  ghost predicate LeaseMoves(s: Sys, step: Step, l: Lease, after: FakeRun) {
    || after.lease == Some(l)
    || (s.now < l.expires && exists seconds :: Renews(s, step, l.token, seconds) && after.lease == Some(CrmSpec.Lease(l.token, s.now + seconds)))
    || (Claims(step) && l.expires <= s.now)
    || Ends.Closed(after)
  }

  lemma LeaseStepMoves(s: Sys, i: AgentId, l: LeaseStep)
    requires LeaseEnabled(s, i, l) && LeaseFits(s.crm.run)
    ensures LeaseFits(AfterLease(s, i, l).crm.run) && (Ends.Closed(s.crm.run) ==> Ends.Closed(AfterLease(s, i, l).crm.run))
    ensures s.crm.run.lease.Some? ==> LeaseMoves(s, Step.Lease(i, l), s.crm.run.lease.value, AfterLease(s, i, l).crm.run)
  {
    hide ClaimTask, EnsureRun;
    if s.crm.run.lease.Some? {
      var held := s.crm.run.lease.value;
      match l
      case ClaimRun(_) =>
      case Renew(seconds) => assert Renews(s, Step.Lease(i, l), s.agents[i].pc.token, seconds);
      case BeatRun(seconds) => assert Renews(s, Step.Lease(i, l), s.agents[i].pc.token, seconds);
      case Ensure =>
      case TakeTask(_) =>
    }
  }

  lemma WorldStepMoves(s: Sys, w: WorldStep)
    requires WorldEnabled(s, w) && LeaseFits(s.crm.run)
    ensures LeaseFits(AfterWorld(s, w).crm.run) && (Ends.Closed(s.crm.run) ==> Ends.Closed(AfterWorld(s, w).crm.run))
    ensures s.crm.run.lease.Some? ==> AfterWorld(s, w).crm.run.lease == s.crm.run.lease
  {
  }

  /** A message that the CRM takes leaves lease and status, or ends the run. */
  lemma MessageMoves(s: Sys, s': Sys, i: AgentId, k: Key, token: Token)
    requires i in s.agents && k in s.agents[i].store.outbox && Logs(s, s', i, k, token)
    requires Ends.FinalReports(s.agents[i].store.outbox)
    ensures (s'.crm.run.lease == s.crm.run.lease && s'.crm.run.status == s.crm.run.status) || Ends.Closed(s'.crm.run)
  {
    var p := s.agents[i].store.outbox[k];
    assert p.Complete? ==> Ends.FinalStatus(p.report.status);
    SubmitCases(s.crm, token, s.now, k, p);
  }

  lemma StepMoves(s: Sys, step: Step)
    requires Inv(s) && Enabled(s, step)
    ensures LeaseFits(Apply(s, step).crm.run) && (Ends.Closed(s.crm.run) ==> Ends.Closed(Apply(s, step).crm.run))
    ensures s.crm.run.lease.Some? ==> LeaseMoves(s, step, s.crm.run.lease.value, Apply(s, step).crm.run)
  {
    assert forall i :: i in s.agents ==> Ends.FinalReports(s.agents[i].store.outbox);
    hide Ends.Inv, WorldEnabled, LeaseEnabled, WorkEnabled, QueueEnabled, AfterWorld, AfterLease, AfterWork, AfterQueue, Delivered, Replayed;
    match step
    case World(w) => WorldStepMoves(s, w);
    case Lease(i, l) => LeaseStepMoves(s, i, l);
    case Work(i, w) => WorkIsQuiet(s, i, w);
    case Queue(i, q) => Ends.QueueChanges(s, i, q);
    case Deliver(i, k, channel) =>
      DeliveringLogs(s, i, k, channel);
      MessageMoves(s, Delivered(s, i, k, channel), i, k, s.agents[i].pc.token);
    case Replay(i, k, channel) =>
      ReplayingLogs(s, i, k, channel);
      MessageMoves(s, Replayed(s, i, k, channel), i, k, s.agents[i].store.token.value);
  }

  lemma StepKeeps(s: Sys, step: Step)
    requires Inv(s) && Enabled(s, step)
    ensures Inv(Apply(s, step))
  {
    StepMoves(s, step);
    hide Ends.Inv, LeaseFits, Enabled, Apply, LeaseMoves;
    Ends.StepKeeps(s, step);
  }

  lemma InitInv(s: Sys)
    requires Init(s)
    ensures Inv(s)
  {
    Ends.InitInv(s);
    hide Ends.Inv;
  }

  lemma ReachableInv(s: Sys)
    requires Reachable(s)
    ensures Inv(s)
  {
    hide Inv, Init, Enabled, Apply, Reachable;
    forall t | Init(t) ensures Inv(t) { InitInv(t); }
    forall t, step | Inv(t) && Enabled(t, step) ensures Inv(Apply(t, step)) { StepKeeps(t, step); }
    ReachableKeep(Inv, s);
  }

  // ---------- every run ----------

  /** In every reachable state, what a step does to the lease. */
  lemma LeaseChangesOnlyBy(s: Sys, step: Step)
    requires Reachable(s) && Enabled(s, step) && s.crm.run.lease.Some?
    ensures LeaseMoves(s, step, s.crm.run.lease.value, Apply(s, step).crm.run)
  {
    ReachableInv(s);
    hide Inv, Enabled, Apply, LeaseMoves, Reachable;
    assert Inv(s);
    StepMoves(s, step);
  }

  ghost predicate Ended(s: Sys) { Inv(s) && Ends.Closed(s.crm.run) }

  lemma EndedStep(s: Sys, step: Step)
    requires Ended(s) && Enabled(s, step)
    ensures Ended(Apply(s, step))
  {
    hide Ends.Inv, Enabled, Apply, LeaseMoves;
    StepMoves(s, step);
    StepKeeps(s, step);
  }

  lemma EndedForever(s: Sys, steps: seq<Step>, s': Sys)
    requires Ended(s) && Runs(s, steps, s')
    ensures Ends.Closed(s'.crm.run)
  {
    hide Inv, Enabled, Apply, Runs;
    forall a, step | Ended(a) && Enabled(a, step) ensures Ended(Apply(a, step)) { EndedStep(a, step); }
    RunsKeep(Ended, s, steps, s');
  }

  lemma {:induction false} ChangesHands(s: Sys, steps: seq<Step>, s': Sys, t: Token, other: Token) returns (n: nat, u: Sys)
    requires Inv(s) && Runs(s, steps, s') && Holds(s.crm.run, t) && Holds(s'.crm.run, other) && t != other
    ensures n < |steps| && Runs(s, steps[..n], u) && Claims(steps[n])
    ensures Holds(u.crm.run, t) && u.crm.run.lease.value.expires <= u.now
    decreases |steps|
  {
    hide Inv, Enabled, Apply, Renews, Ends.Closed;
    n, u := 0, s;
    if |steps| == 0 { assert false; }
    var next := Apply(s, steps[0]);
    assert Inv(s);
    StepMoves(s, steps[0]);
    StepKeeps(s, steps[0]);
    if Holds(next.crm.run, t) {
      var m;
      m, u := ChangesHands(next, steps[1..], s', t, other);
      n := m + 1;
      assert steps[..n][0] == steps[0] && steps[..n][1..] == steps[1..][..m];
    } else if Ends.Closed(next.crm.run) {
      EndedForever(next, steps[1..], s');
      NotHeld(s', other);
    } else {
      n, u := 0, s;
    }
  }

  lemma NotHeld(s: Sys, t: Token)
    requires Ends.Closed(s.crm.run)
    ensures !Holds(s.crm.run, t)
  {
  }

  /** In every run, between a grant and the next one there is a moment when the clock has reached the end of the lease, as
      its holder last renewed it: a lease that has not run out is never taken away. */
  lemma LeaseIsTakenOnlyWhenRunOut(s: Sys, steps: seq<Step>, s': Sys, t: Token, other: Token) returns (n: nat, u: Sys)
    requires Reachable(s) && Runs(s, steps, s') && Holds(s.crm.run, t) && Holds(s'.crm.run, other) && t != other
    ensures n < |steps| && Runs(s, steps[..n], u) && Claims(steps[n])
    ensures Holds(u.crm.run, t) && u.crm.run.lease.value.expires <= u.now
  {
    ReachableInv(s);
    hide Inv, Runs, Holds, Claims;
    n, u := ChangesHands(s, steps, s', t, other);
  }

  /** In every reachable state the run can be claimed if and only if it has not ended, was not cancelled, and no token is
      valid. */
  lemma ClaimableIffFree(s: Sys)
    requires Reachable(s)
    ensures Claimable(s.crm.run, s.now) <==>
              (s.crm.run.status == RunPending || s.crm.run.status == RunRunning) && forall t :: !ValidLease(s.crm.run, t, s.now)
  {
    ReachableInv(s);
    hide Ends.Inv, Reachable;
    var run := s.crm.run;
    if run.lease.Some? && s.now < run.lease.value.expires { assert ValidLease(run, run.lease.value.token, s.now); }
  }
}
