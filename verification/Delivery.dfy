/** One attempt to deliver one outbox message (app/prospecting/worker.py): what it does to the CRM,
    what it does to the store, and whether the worker goes on to the next message. */
module Delivery {
  import opened Contracts
  import opened CrmSpec
  import opened StoreSpec

  /** The fate of a request: answered; accepted but the answer lost; never received; or the worker
      stops after the CRM answered and before its store recorded anything. */
  datatype Channel = Answered | ResponseLost | RequestLost | Crashed

  /** A payload the CRM rejects permanently is rejected whole, whatever state the CRM is in. */
  function Call(crm: Crm, token: Token, now: nat, k: Key, p: Payload, refused: bool): (Crm, Response) {
    if refused then (crm, Rejected) else Submit(crm, token, now, k, p)
  }

  function CrmAfter(crm: Crm, token: Token, now: nat, k: Key, p: Payload, channel: Channel, refused: bool): Crm {
    if channel == RequestLost then crm else Call(crm, token, now, k, p, refused).0
  }

  /** `_finalize_outbox_delivery`. */
  function Finalize(run: MemoryRun, k: Key, p: Payload): MemoryRun {
    match p
    case Complete(report) => FinalizeTerminal(run, k, report.status)
    case Fail(_) => FinalizeTerminal(run, k, RunFailed)
    case _ => MarkDelivered(run, k)
  }

  function Settle(run: MemoryRun, k: Key, p: Payload, answer: Response): MemoryRun {
    Finalize(if answer.Acked? then RecordAck(run, k, answer.ack) else run, k, p)
  }

  /** A rejected batch is split, a rejected single candidate discarded, anything else is a dead letter. */
  function Isolate(run: MemoryRun, k: Key, now: nat): (MemoryRun, bool) {
    if CanSplit(run, k) then (Split(run, k), true)
    else if CanDiscard(run, k) then (Discard(run, k), true)
    else (MarkFailed(run, k, false, now), false)
  }

  /** The body of the loop of `_deliver_outbox`; the flag says whether the loop goes on. */
  function StoreAfter(crm: Crm, run: MemoryRun, token: Token, now: nat, k: Key, channel: Channel, refused: bool): (MemoryRun, bool)
    requires k in run.outbox
  {
    var answer := Call(crm, token, now, k, run.outbox[k], refused).1;
    match channel
    case Crashed => (run, false)
    case RequestLost => (MarkFailed(run, k, true, now), false)
    case ResponseLost => (MarkFailed(run, k, true, now), false)
    case Answered =>
      match answer
      case Done => (Settle(run, k, run.outbox[k], answer), true)
      case Acked(_) => (Settle(run, k, run.outbox[k], answer), true)
      case LeaseLost => (run, false)
      case Conflict => (MarkFailed(run, k, false, now), false)
      case Missing => (MarkFailed(run, k, true, now), false)
      case Rejected => Isolate(run, k, now)
  }

  /** The body of the loop of `_reconcile_terminal_outbox`. */
  function StoreAfterReplay(crm: Crm, run: MemoryRun, now: nat, k: Key, channel: Channel, refused: bool): MemoryRun
    requires k in run.outbox && run.token.Some?
  {
    var answer := Call(crm, run.token.value, now, k, run.outbox[k], refused).1;
    match channel
    case Crashed => run
    case RequestLost => MarkFailed(run, k, true, now)
    case ResponseLost => MarkFailed(run, k, true, now)
    case Answered =>
      match answer
      case Done => Finalize(run, k, run.outbox[k])
      case Acked(_) => Finalize(run, k, run.outbox[k])
      case LeaseLost => MarkFailed(run, k, true, now)
      case Missing => MarkFailed(run, k, true, now)
      case Conflict => MarkFailed(run, k, false, now)
      case Rejected => MarkFailed(run, k, false, now)
  }
}
