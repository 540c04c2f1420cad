/** What one delivery attempt can change in the store. */
module DeliveryLaws {
  import opened Contracts
  import opened CrmSpec
  import opened CrmLaws
  import opened StoreSpec
  import opened Delivery

  ghost predicate Tidy(run: MemoryRun) {
    run.delivered <= run.outbox.Keys && run.dead <= run.outbox.Keys
  }

  /** Messages are never changed or removed; only k can become delivered or dead; only its halves are new. */
  ghost predicate Handled(before: MemoryRun, after: MemoryRun, k: Key) {
    && after.tasks == before.tasks && after.order == before.order && after.cap == before.cap && after.token == before.token
    && (forall m :: m in before.outbox ==> m in after.outbox && after.outbox[m] == before.outbox[m])
    && (forall m :: m in after.outbox && m !in before.outbox ==> m == SplitKey(k, 0) || m == SplitKey(k, 1))
    && before.delivered <= after.delivered <= before.delivered + {k}
    && before.dead - {k} <= after.dead <= before.dead + {k}
    && (Tidy(before) ==> Tidy(after))
  }

  lemma MarkFailedHandles(run: MemoryRun, k: Key, retryable: bool, now: nat)
    requires Queued(run, k)
    ensures Handled(run, MarkFailed(run, k, retryable, now), k)
  {
  }

  lemma SettleHandles(run: MemoryRun, k: Key, answer: Response)
    requires Queued(run, k)
    ensures Handled(run, Settle(run, k, run.outbox[k], answer), k)
    ensures Settle(run, k, run.outbox[k], answer).dead == run.dead && k in Settle(run, k, run.outbox[k], answer).delivered
  {
  }

  lemma IsolateHandles(run: MemoryRun, k: Key, now: nat)
    requires Queued(run, k)
    ensures var (after, more) := Isolate(run, k, now);
      && Handled(run, after, k)
      && (more ==> after.dead == run.dead && k in after.delivered && run.outbox[k].Candidates?)
  {
    if !CanSplit(run, k) && !CanDiscard(run, k) { MarkFailedHandles(run, k, false, now); }
  }

  lemma DeliveryHandles(crm: Crm, run: MemoryRun, token: Token, now: nat, k: Key, channel: Channel, refused: bool)
    requires Queued(run, k)
    ensures Handled(run, StoreAfter(crm, run, token, now, k, channel, refused).0, k)
    ensures var (after, more) := StoreAfter(crm, run, token, now, k, channel, refused);
      && (more ==> after.dead == run.dead && k in after.delivered && channel == Answered)
      && (more && !run.outbox[k].Candidates? ==> k in CrmAfter(crm, token, now, k, run.outbox[k], channel, refused).idem)
  {
    hide Submit, MarkFailed, Settle, Isolate, Handled;
    SubmitCases(crm, token, now, k, run.outbox[k]);
    var answer := Call(crm, token, now, k, run.outbox[k], refused).1;
    if answer == Done || answer.Acked? { SettleHandles(run, k, answer); }
    IsolateHandles(run, k, now);
    MarkFailedHandles(run, k, true, now);
    MarkFailedHandles(run, k, false, now);
    HandledSame(run, k);
  }

  lemma HandledSame(run: MemoryRun, k: Key)
    ensures Handled(run, run, k)
  {
  }

  lemma SettleDone(run: MemoryRun, k: Key)
    requires k in run.outbox
    ensures Settle(run, k, run.outbox[k], Done) == Finalize(run, k, run.outbox[k])
  {
  }

  lemma ReplayHandles(crm: Crm, run: MemoryRun, now: nat, k: Key, channel: Channel, refused: bool)
    requires Queued(run, k) && run.token.Some?
    ensures Handled(run, StoreAfterReplay(crm, run, now, k, channel, refused), k)
  {
    hide Submit, MarkFailed, Settle, Handled;
    HandledSame(run, k);
    assert Finalize(run, k, run.outbox[k]) == Settle(run, k, run.outbox[k], Done) by { SettleDone(run, k); }
    SettleHandles(run, k, Done);
    MarkFailedHandles(run, k, true, now);
    MarkFailedHandles(run, k, false, now);
  }

  /** The CRM either stays as it was or accepts exactly this message under the current lease. */
  lemma CrmAfterCases(crm: Crm, token: Token, now: nat, k: Key, p: Payload, channel: Channel, refused: bool)
    ensures var after := CrmAfter(crm, token, now, k, p, channel, refused);
      after == crm ||
      (!refused && k !in crm.idem && ValidLease(crm.run, token, now) && after.idem == crm.idem[k := p]
       && after == Submit(crm, token, now, k, p).0
       && (after.run.lease == crm.run.lease || (p.Terminal() && after.run.lease == None)))
  {
    SubmitCases(crm, token, now, k, p);
  }

  ghost predicate CountsSame(before: MemoryRun, after: MemoryRun) {
    after.crmAccepted == before.crmAccepted && after.baseline == before.baseline
  }

  /** Nothing is counted unless the message becomes delivered; a candidates message the CRM did not refuse
      is counted with exactly the answer that the CRM keeps for its key. */
  lemma DeliveryCounts(crm: Crm, run: MemoryRun, token: Token, now: nat, k: Key, channel: Channel, refused: bool)
    requires Queued(run, k)
    ensures var after := StoreAfter(crm, run, token, now, k, channel, refused).0;
      var later := CrmAfter(crm, token, now, k, run.outbox[k], channel, refused);
      || (CountsSame(run, after) && after.delivered == run.delivered)
      || (CountsSame(run, after) && after.delivered == run.delivered + {k}
          && if run.outbox[k].Candidates? then refused else k in later.idem)
      || (!refused && run.outbox[k].Candidates? && k in later.idem && k in later.results
          && later.idem[k] == run.outbox[k] && after.delivered == run.delivered + {k}
          && after.crmAccepted == run.crmAccepted + later.results[k].accepted
          && after.baseline == Max(run.baseline, TotalIn(run, later.results[k])))
  {
    hide Submit, Backoff;
    SubmitCases(crm, token, now, k, run.outbox[k]);
  }

  lemma ReplayCounts(crm: Crm, run: MemoryRun, now: nat, k: Key, channel: Channel, refused: bool)
    requires Queued(run, k) && run.token.Some? && run.outbox[k].Terminal()
    ensures var after := StoreAfterReplay(crm, run, now, k, channel, refused);
      && CountsSame(run, after) && (forall m :: m in after.outbox ==> m in run.outbox)
      && (after.delivered == run.delivered
          || (after.delivered == run.delivered + {k}
              && k in CrmAfter(crm, run.token.value, now, k, run.outbox[k], channel, refused).idem))
  {
    SubmitCases(crm, run.token.value, now, k, run.outbox[k]);
  }

  /** New messages are halves of the message delivered. */
  lemma DeliverySplits(crm: Crm, run: MemoryRun, token: Token, now: nat, k: Key, channel: Channel, refused: bool, m: Key)
    requires Queued(run, k)
    requires m in StoreAfter(crm, run, token, now, k, channel, refused).0.outbox && m !in run.outbox
    ensures m.SplitKey? && m.parent == k && run.outbox[k].Candidates?
    ensures StoreAfter(crm, run, token, now, k, channel, refused).0.outbox[m] == Candidates(Half(run.outbox[k].batch, m.half))
  {
  }

  /** A replayed report is delivered exactly if the CRM has it and says so, buried exactly if the CRM knows another message
      under its key or rejects it, and otherwise stays queued to be tried again: a lease that was lost does not lose it. */
  lemma ReplayKeepsTheReport(crm: Crm, run: MemoryRun, now: nat, k: Key, channel: Channel, refused: bool)
    requires Queued(run, k) && run.token.Some? && run.outbox[k].Terminal()
    ensures var after := StoreAfterReplay(crm, run, now, k, channel, refused);
      var p := run.outbox[k];
      var known, held := k in crm.idem && crm.idem[k] == p, ValidLease(crm.run, run.token.value, now);
      && (k in after.delivered <==> channel == Answered && !refused && (known || (k !in crm.idem && held)))
      && (k in after.dead <==> channel == Answered && (refused || (k in crm.idem && crm.idem[k] != p)))
      && (channel == Answered && !refused && k !in crm.idem && !held ==> Queued(after, k))
      && (k !in after.delivered && k !in after.dead ==> Queued(after, k) && after.outbox == run.outbox)
  {
    hide Backoff, Ended;
  }
}
