/** When a wakeup that arrives during a run is served, and when a failing run is tried again. */
module QueueWakeups {
  import opened Options
  import opened QueueModel
  import opened QueueInvariants
  import opened QueueRuns

  /** The chat's messages are being looked after: a run of it is on, and nothing is left to remember. */
  predicate Served(q: Queue, jid: string) {
    jid in q.slots && q.slots[jid].active && !q.slots[jid].pendingMessages
  }

  /** The slot is on an activation that this step made. */
  predicate FreshRun(q: Queue, q': Queue, jid: string) {
    Served(q', jid) && q'.slots[jid].activation == q.activations && q'.pendingRuns[jid] > 0
  }

  /** A step at which the slot of a chat is released, or its run settles, serves a wakeup that is pending, or that the
      step itself brings about: processMessagesFn is called for the chat, once and for no other, and either the kept
      idle agent is piped to, or a new run is started at once, before anything that waits. */
  lemma PendingServedOnRelease(q: Queue, e: Event, jid: string)
    requires Inv(q) && Possible(q, e) && Disciplined(q, e) && !IsTaskKey(jid) && jid in ActiveKeys(q)
    requires match e
             case RunSettles(j, _, _) => j == jid && q.slots[jid].pendingMessages
             case Exited(key, staleFiles) =>
               key == jid && ReleasesOnExit(q.slots[jid])
               && (q.slots[jid].pendingMessages || (staleFiles && q.slots[jid].groupFolder.Some?))
             case Sent(j, _, _, proc, _) => j == jid && FindsDead(q.slots[jid], proc)
             case RetryRequested(j, proc, _) =>
               j == jid && HasRetryTurn(q.slots[jid]) && FindsDead(q.slots[jid], proc)
             case _ => false
    ensures Step(q, e).fetched == q.fetched + [jid]
    ensures Served(Step(q, e), jid)
    ensures |Step(q, e).releases| > |q.releases| ==> FreshRun(q, Step(q, e), jid)
    ensures !e.RunSettles? ==> FreshRun(q, Step(q, e), jid)
  {
    assert SlotOk(jid, q.slots[jid]);
    hide Inv, DrainGroup, IsTaskKey, Mid;
    match e {
      case RunSettles(_, outcome, proc) =>
        SettleServes(q, jid, outcome, proc);
      case Exited(_, staleFiles) =>
        ExitServes(q, jid, staleFiles);
      case Sent(_, text, cursor, proc, written) =>
        DeadSendServes(q, jid, text, cursor, proc, written);
      case RetryRequested(_, proc, written) =>
        DeadRetryServes(q, jid, proc, written);
    }
  }

  lemma SettleServes(q: Queue, jid: string, outcome: RunOutcome, proc: ProcessView)
    requires jid in q.slots && q.slots[jid].pendingMessages && q.slots[jid].active
    ensures var q' := SettleRun(q, jid, outcome, proc);
            && Served(q', jid) && (|q'.releases| > |q.releases| ==> FreshRun(q, q', jid))
            && q'.fetched == q.fetched + [jid]
  {}

  lemma ExitServes(q: Queue, jid: string, staleFiles: bool)
    requires jid in q.slots && q.slots[jid].chatJid == jid
    requires q.slots[jid].pendingMessages || (staleFiles && q.slots[jid].groupFolder.Some?)
    requires ReleasesOnExit(q.slots[jid])
    ensures FreshRun(q, ProcessExit(q, jid, staleFiles), jid)
    ensures ProcessExit(q, jid, staleFiles).fetched == q.fetched + [jid]
  {}

  lemma DeadSendServes(q: Queue, jid: string, text: string, cursor: string, proc: ProcessView, written: bool)
    requires jid in q.slots && FindsDead(q.slots[jid], proc)
    ensures FreshRun(q, SendMessage(q, jid, text, cursor, proc, written).0, jid)
    ensures SendMessage(q, jid, text, cursor, proc, written).0.fetched == q.fetched + [jid]
  {}

  lemma DeadRetryServes(q: Queue, jid: string, proc: ProcessView, written: bool)
    requires jid in q.slots && HasRetryTurn(q.slots[jid]) && FindsDead(q.slots[jid], proc)
    ensures FreshRun(q, RequestDeliveryRetry(q, jid, proc, written).0, jid)
    ensures RequestDeliveryRetry(q, jid, proc, written).0.fetched == q.fetched + [jid]
  {
    hide SendMessage;
    var s := q.slots[jid];
    var taken := SetSlot(q, jid, TurnTaken(s));
    DeadSendServes(taken, jid, s.currentTurnText.value, s.currentTurnStartCursor.value, proc, written);
  }

  // ------------------------------------------------------------------ retries of failing runs

  /** The retry counter after `n` runs in a row have failed, from a fresh slot. */
  function CountAfter(n: nat): nat {
    if n == 0 then 0 else ScheduleRetry(CountAfter(n - 1)).0
  }

  /** What the n-th failure in a row (from 0) schedules: 5, 10, 20, 40 and 80 seconds, then nothing, and over again. */
  lemma {:induction false} BackoffCycle(n: nat)
    ensures CountAfter(n) == n % 6
    ensures ScheduleRetry(CountAfter(n)).1 == if n % 6 == 5 then None else Some(5000 * Pow2(n % 6))
  {
    if n == 0 {
    } else {
      BackoffCycle(n - 1);
    }
  }

  /** A failure of a chat's run takes one step in that cycle, a success goes back to its start; what is drained
      afterwards, which may be the chat's next run, leaves the counter alone. */
  lemma SettlementCounts(q: Queue, jid: string, outcome: RunOutcome, proc: ProcessView)
    requires jid in q.slots
    ensures var q' := SettleRun(q, jid, outcome, proc);
            && jid in q'.slots
            && q'.slots[jid].retryCount == if outcome.Succeeded? then 0 else ScheduleRetry(q.slots[jid].retryCount).0
  {
    hide DrainGroup;
    var s := AfterOutcome(q.slots[jid], outcome);
    var q1 := SetSlot(q, jid, s).(pendingRuns := q.pendingRuns - multiset{jid});
    DrainGroupKeepsRetryCount(q1, jid, proc, jid);
    DrainGroupKeepsRetryCount(ReleaseSlot(q1, jid, ByRunFinally), jid, proc, jid);
  }

  lemma {:induction false} DrainWaitingKeepsRetryCount(q: Queue, jid: string)
    requires jid in q.slots
    ensures jid in DrainWaiting(q).slots && DrainWaiting(q).slots[jid].retryCount == q.slots[jid].retryCount
    decreases |q.waitingSlots|
  {
    if q.waitingSlots == [] || q.activeCount >= q.cap {
    } else {
      DrainWaitingKeepsRetryCount(StartNextWaiting(q), jid);
    }
  }

  lemma DrainGroupKeepsRetryCount(q: Queue, chat: string, proc: ProcessView, jid: string)
    requires jid in q.slots
    ensures var r := DrainGroup(q, chat, proc);
            jid in r.slots && r.slots[jid].retryCount == q.slots[jid].retryCount
  {
    DrainWaitingKeepsRetryCount(GetGroup(q, chat), jid);
  }
}
