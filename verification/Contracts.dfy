/** The values that the worker, its durable store and the CRM exchange.

    Identifiers, clocks and tokens are natural numbers; digests and formatted keys are
    injective datatypes, so two keys or payloads are equal only when their parts are. */
module Contracts {
  datatype Option<+T> = None | Some(value: T)

  type RunId = nat
  type TaskId = nat
  type AgentId = nat
  type EventId = nat
  type Token = nat

  datatype SourceName = GooglePlaces | BraveSearch | OfficialWebsite

  datatype TaskStatus = Pending | Running | Completed | Failed | Cancelled {
    predicate Open() { this == Pending || this == Running }
  }

  datatype RunStatus =
    | RunPending | RunRunning | RunPaused | RunPartial | RunCompleted | RunFailed
    | RunCancelRequested | RunCancelled

  /** `content` stands for every business field of a candidate. */
  datatype Candidate = Candidate(id: Option<nat>, content: nat)

  datatype CandidateKey = ById(id: nat) | ByContent(candidate: Candidate)

  function KeyOf(c: Candidate): CandidateKey {
    if c.id.Some? then ById(c.id.value) else ByContent(c)
  }

  /** An event and the metrics the CRM reads from it; an absent metric is `None`. */
  datatype RunEvent = RunEvent(
    id: EventId, task: Option<TaskId>, status: Option<TaskStatus>,
    attempt: Option<nat>, accepted: Option<nat>, found: Option<nat>, discarded: Option<nat>,
    budgetLimited: bool)

  datatype RunSummary = RunSummary(
    pending: nat, running: nat, completed: nat, failed: nat, cancelled: nat, candidates: nat,
    deadLetters: nat, crmAccepted: nat, rejectedLimit: nat, rejectedInvalid: nat, budgetLimited: nat)

  datatype Report = Report(status: RunStatus, stats: RunSummary, deliveryFailed: bool, limitReached: bool)

  datatype Payload =
    | Events(events: seq<RunEvent>)
    | Candidates(batch: seq<Candidate>)
    | Complete(report: Report)
    | Fail(error: nat)
  {
    predicate Terminal() { Complete? || Fail? }
  }

  /** Idempotency keys, one constructor for each format string of the worker and the store. */
  datatype Key =
    | CandidatesKey(run: RunId, task: TaskId, attempt: nat)
    | SplitKey(parent: Key, half: nat)
    | EventKey(run: RunId, event: EventId)
    | TerminalKey(run: RunId, status: RunStatus)
  {
    function Owner(): RunId {
      match this
      case SplitKey(parent, _) => parent.Owner()
      case CandidatesKey(run, _, _) => run
      case EventKey(run, _) => run
      case TerminalKey(run, _) => run
    }

    predicate ForCandidates() { CandidatesKey? || (SplitKey? && parent.ForCandidates()) }
  }

  /** `found` is the CRM's total of candidates, if it says. */
  datatype Ack = Ack(accepted: nat, rejectedLimit: nat, found: Option<nat>, ids: seq<CandidateKey>)

  datatype ClaimedTask = ClaimedTask(
    id: TaskId, source: SourceName, status: TaskStatus, attempts: nat, found: nat, discarded: nat,
    maxAttempts: nat)

  datatype Claim = Claim(token: Token, expires: nat, candidatesFound: nat, tasks: seq<ClaimedTask>)

  /** What a CRM call returns or raises. */
  datatype Response = Done | Acked(ack: Ack) | LeaseLost | Conflict | Rejected | Missing

  function Max(a: nat, b: nat): nat { if a < b then b else a }

  function Min(a: nat, b: nat): nat { if a < b then a else b }

  function OrElse<T>(o: Option<T>, d: T): T { if o.Some? then o.value else d }

  ghost predicate DistinctIds(tasks: seq<ClaimedTask>) {
    forall i, j :: 0 <= i < j < |tasks| ==> tasks[i].id != tasks[j].id
  }
}
