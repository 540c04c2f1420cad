/** Why the worker ends a run, and what its report says, in terms of the records of the run (`_process_claim`,
    app/prospecting/worker.py). */
module Reports {
  import opened Contracts
  import opened StoreSpec
  import opened StoreLaws

  ghost predicate Fails(run: MemoryRun) { exists t :: t in run.tasks && run.tasks[t].status == Failed }

  ghost predicate OpenWork(run: MemoryRun) { exists t :: t in run.tasks && run.tasks[t].status.Open() }

  ghost predicate LimitedEvent(events: seq<RunEvent>) { exists j :: 0 <= j < |events| && events[j].budgetLimited }

  /** Some event that was ever saved says that a source ran out of budget. */
  ghost predicate OverBudget(run: MemoryRun) {
    exists k :: k in run.outbox && run.outbox[k].Events? && LimitedEvent(run.outbox[k].events)
  }

  /** The report fits the record of the run at the moment of the decision: a dead letter, the cap reached, or nothing left
      to do; and the status is partial exactly when something failed, was buried, was discarded as invalid, or, when
      nothing was left to do, ran out of budget. */
  ghost predicate Justified(run: MemoryRun, report: Report, cancelled: bool) {
    if report.status == RunCancelled then cancelled && !report.deliveryFailed && !report.limitReached
    else
      && (report.deliveryFailed <==> run.dead != {})
      && (report.limitReached <==> run.dead == {} && run.baseline >= run.cap)
      && (run.dead == {} && run.baseline < run.cap ==> !OpenWork(run))
      && report.status == (if run.dead != {} || Fails(run) || run.rejectedInvalid > 0 || (run.baseline < run.cap && OverBudget(run))
                           then RunPartial else RunCompleted)
  }

  // ---------- what the summary says ----------

  lemma {:induction false} LimitedEventsCount(events: seq<RunEvent>)
    ensures LimitedEvents(events) > 0 <==> LimitedEvent(events)
  {
    if |events| > 0 {
      var most := events[..|events| - 1];
      LimitedEventsCount(most);
      if j :| 0 <= j < |most| && most[j].budgetLimited { assert events[j].budgetLimited; }
      if j :| 0 <= j < |events| && events[j].budgetLimited && j < |most| { assert most[j].budgetLimited; }
      if events[|events| - 1].budgetLimited { assert LimitedEvent(events); }
    }
  }

  ghost predicate LimitedMessage(run: MemoryRun, k: Key) {
    k in run.outbox && run.outbox[k].Events? && LimitedEvent(run.outbox[k].events)
  }

  lemma {:induction false} LimitedMessagesCount(run: MemoryRun, keys: seq<Key>)
    ensures LimitedMessages(run, keys) > 0 <==> exists k :: k in keys && LimitedMessage(run, k)
  {
    hide LimitedEvents, LimitedEvent;
    if |keys| > 0 {
      var most, k := keys[..|keys| - 1], keys[|keys| - 1];
      assert keys == most + [k];
      LimitedMessagesCount(run, most);
      if k in run.outbox && run.outbox[k].Events? { LimitedEventsCount(run.outbox[k].events); }
      if LimitedMessage(run, k) { assert k in keys; }
      if m :| m in most && LimitedMessage(run, m) { assert m in keys; }
    }
  }

  /** The tasks of the run with the status. */
  ghost function OfStatus(run: MemoryRun, status: TaskStatus): set<TaskId> { set t | t in run.tasks.Keys && run.tasks[t].status == status }

  /** Each count of the summary is the number of tasks with that status. */
  lemma SummaryCounts(run: MemoryRun)
    ensures var s := Summary(run);
      && s.pending == |OfStatus(run, Pending)| && s.running == |OfStatus(run, Running)| && s.completed == |OfStatus(run, Completed)|
      && s.failed == |OfStatus(run, Failed)| && s.cancelled == |OfStatus(run, Cancelled)|
  {
    hide LimitedMessages;
    SameTasks(run, Pending);
    SameTasks(run, Running);
    SameTasks(run, Completed);
    SameTasks(run, Failed);
    SameTasks(run, Cancelled);
  }

  lemma SameTasks(run: MemoryRun, status: TaskStatus)
    ensures InStatus(run, status) == OfStatus(run, status)
  {
  }

  /** When the numbers on which the worker decides are positive. */
  lemma SummarySays(run: MemoryRun)
    requires StoreSpec.Valid(run)
    ensures var s := Summary(run);
      && (s.failed > 0 <==> Fails(run)) && (s.pending > 0 || s.running > 0 <==> OpenWork(run))
      && (s.deadLetters > 0 <==> run.dead != {}) && s.candidates == run.baseline && s.rejectedInvalid == run.rejectedInvalid
      && (s.budgetLimited > 0 <==> OverBudget(run)) && s.crmAccepted == run.crmAccepted && s.rejectedLimit == run.rejectedLimit
  {
    LimitedMessagesCount(run, run.queue);
    hide LimitedMessages, LimitedEvent, NoRepeats;
    if Fails(run) { var t :| t in run.tasks && run.tasks[t].status == Failed; assert t in InStatus(run, Failed); }
    if OpenWork(run) {
      var t :| t in run.tasks && run.tasks[t].status.Open();
      assert t in InStatus(run, run.tasks[t].status);
    }
    if OverBudget(run) {
      var k :| k in run.outbox && run.outbox[k].Events? && LimitedEvent(run.outbox[k].events);
      assert k in run.queue && LimitedMessage(run, k);
    }
    HasSome(InStatus(run, Failed));
    HasSome(InStatus(run, Pending));
    HasSome(InStatus(run, Running));
  }

  lemma HasSome<T>(s: set<T>)
    ensures |s| > 0 <==> exists x :: x in s
  {
    if |s| > 0 { var x :| x in s; }
  }

  /** With nothing open there is nothing to cancel. */
  lemma NothingToCancel(run: MemoryRun)
    requires !OpenWork(run)
    ensures CancelTasks(run) == run
  {
    forall t | t in run.tasks ensures CancelTasks(run).tasks[t] == run.tasks[t] { assert !run.tasks[t].status.Open(); }
    assert CancelTasks(run).tasks == run.tasks;
  }

  /** The numbers of the report add up to every task of the run, none of them open. */
  lemma CancelledSummary(run: MemoryRun)
    ensures Summary(CancelTasks(run)).pending == 0 && Summary(CancelTasks(run)).running == 0
    ensures Summary(CancelTasks(run)).failed == Summary(run).failed && Summary(CancelTasks(run)).completed == Summary(run).completed
  {
    var after := CancelTasks(run);
    assert InStatus(after, Pending) == {} && InStatus(after, Running) == {};
    assert InStatus(after, Failed) == InStatus(run, Failed);
    assert InStatus(after, Completed) == InStatus(run, Completed);
  }
}
