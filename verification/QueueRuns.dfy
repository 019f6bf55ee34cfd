/** Runs of the scheduler: every call, settlement and exit event, in any order. */
module QueueRuns {
  import opened Options
  import opened QueueModel
  import opened QueueInvariants
  import opened QueueMoves
  import opened QueueDraining

  datatype Event =
    | MessageCheck(jid: string)  // from the message loop or a retry timer
    | TaskDue(jid: string, taskId: string, fn: nat)
    | RunSettles(jid: string, outcome: RunOutcome, proc: ProcessView)
    | TaskSettles(key: string)
    | Registered(key: string, groupFolder: string)
    | Exited(key: string, staleFiles: bool)
    | Idle(jid: string)
    | TaskIdle(jid: string, taskId: string)
    | Recycled(jid: string, proc: ProcessView)
    | Killed(jid: string)
    | Sent(jid: string, text: string, cursor: string, proc: ProcessView, written: bool)
    | CursorSet(jid: string, cursor: string)
    | UserDelivery(jid: string)
    | AgentOutput(jid: string)
    | RetryRequested(jid: string, proc: ProcessView, written: bool)
    | Looked(jid: string)  // the getters also create the slot

  /** Chat jids are not task keys; a promise settles only if it is pending; a listener that matters sits on
      a slot in the map. */
  predicate Possible(q: Queue, e: Event) {
    match e
    case TaskDue(_, _, _) => true
    case TaskSettles(key) => IsTaskKey(key) && key in q.pendingRuns && key in q.slots
    case Registered(_, _) => true
    case Exited(key, _) => key in q.slots
    case TaskIdle(_, _) => true
    case RunSettles(jid, _, _) => !IsTaskKey(jid) && jid in q.pendingRuns && jid in q.slots
    case _ => !IsTaskKey(e.jid)
  }

  /** No process death is acted upon on a slot whose run is still pending. */
  predicate Disciplined(q: Queue, e: Event) {
    match e
    case Exited(key, _) => key in q.pendingRuns && key in q.slots ==> !ReleasesOnExit(q.slots[key])
    case Sent(jid, _, _, proc, _) => jid in q.pendingRuns && jid in q.slots ==> !FindsDead(q.slots[jid], proc)
    case RetryRequested(jid, proc, _) =>
      jid in q.pendingRuns && jid in q.slots && HasRetryTurn(q.slots[jid]) ==> !FindsDead(q.slots[jid], proc)
    case _ => true
  }

  function Step(q: Queue, e: Event): Queue
    requires Possible(q, e)
  {
    match e
    case MessageCheck(jid) => EnqueueMessageCheck(q, jid)
    case TaskDue(jid, taskId, fn) => EnqueueTask(q, jid, taskId, fn)
    case RunSettles(jid, outcome, proc) => SettleRun(q, jid, outcome, proc)
    case TaskSettles(key) => SettleTask(q, key)
    case Registered(key, groupFolder) => RegisterProcess(q, key, groupFolder)
    case Exited(key, staleFiles) => ProcessExit(q, key, staleFiles)
    case Idle(jid) => MarkIdle(q, jid)
    case TaskIdle(jid, taskId) => NotifyTaskIdle(q, jid, taskId)
    case Recycled(jid, proc) => RecycleIdle(q, jid, proc).0
    case Killed(jid) => KillActive(q, jid).0
    case Sent(jid, text, cursor, proc, written) => SendMessage(q, jid, text, cursor, proc, written).0
    case CursorSet(jid, cursor) => SetCurrentTurnStartCursor(q, jid, cursor)
    case UserDelivery(jid) => NotifyUserDelivery(q, jid)
    case AgentOutput(jid) => NotifyAgentOutput(q, jid)
    case RetryRequested(jid, proc, written) => RequestDeliveryRetry(q, jid, proc, written).0
    case Looked(jid) => GetGroup(q, jid)
  }

  // ------------------------------------------------------------------ each event keeps the invariant

  /** What carries over from Inv when only slots change. */
  lemma FromMid(q: Queue, q': Queue)
    requires Inv(q) && Mid(q', {})
    requires q'.waitingSlots == q.waitingSlots && q'.waitingTaskFns == q.waitingTaskFns
    requires q'.activeCount == q.activeCount && q'.cap == q.cap
    requires q'.accepted == q.accepted && q'.started == q.started
    ensures Inv(q')
  {}

  lemma GetGroupInv(q: Queue, jid: string)
    requires Inv(q) && !IsTaskKey(jid)
    ensures Inv(GetGroup(q, jid))
    ensures var s := GetGroup(q, jid).slots[jid];
            s.retryCount <= MAX_RETRIES && s.taskId.None? && !s.isTaskContainer && s.chatJid == jid
  {
    hide CountsOk, WaitingOk, LedgerOk, RollbackOk, SitesOk;
    GetGroupKeeps(q, jid, {});
  }

  /** An update that leaves a slot's standing and pending flag alone, or is made on an active slot. */
  lemma QuietUpdateInv(q: Queue, key: string, s: Slot)
    requires Inv(q) && key in q.slots
    requires SameStanding(q.slots[key], s) && s.retryCount <= MAX_RETRIES
    requires s.active || s.pendingMessages == q.slots[key].pendingMessages
    ensures Inv(SetSlot(q, key, s))
  {
    hide CountsOk, WaitingOk, LedgerOk, RollbackOk, SitesOk;
    PendingIsWaiting(q, key);
    SetSlotKeeps(q, key, s, {});
  }

  lemma ActiveNotWaiting(q: Queue, key: string)
    requires WaitingOk(q, {}) && key in ActiveKeys(q)
    ensures key !in q.waitingSlots
  {}

  lemma ParkChatInv(q: Queue, jid: string)
    requires Inv(q) && jid in q.slots && !IsTaskKey(jid) && !q.slots[jid].active && q.activeCount >= q.cap
    ensures Inv(EnqueueMessageCheck(q, jid))
  {
    hide CountsOk, WaitingOk, LedgerOk, RollbackOk, SitesOk, TasksOk;
    SlotBound(q, jid);
    var s := q.slots[jid].(pendingMessages := true);
    var q' := EnqueueMessageCheck(q, jid);
    ParkChatWaiting(q, jid);
    ParkChatTasks(q, jid);
    SetSlotCounts(q, jid, s);
    SameCounts(SetSlot(q, jid, s), q');
    StandingsKeep(q, q', {}, {});
  }

  lemma ParkChatWaiting(q: Queue, jid: string)
    requires WaitingOk(q, {}) && CountsOk(q)
    requires jid in q.slots && !IsTaskKey(jid) && !q.slots[jid].active && q.activeCount >= q.cap
    ensures WaitingOk(EnqueueMessageCheck(q, jid), {})
  {}

  lemma ParkChatTasks(q: Queue, jid: string)
    requires TasksOk(q) && WaitingOk(q, {}) && jid in q.slots && !q.slots[jid].active && q.activeCount >= q.cap
    ensures TasksOk(EnqueueMessageCheck(q, jid))
  {
    TasksOfAppend(q.waitingSlots, jid, q.waitingTaskFns);
  }

  lemma MessageCheckInv(q: Queue, jid: string)
    requires Inv(q) && !IsTaskKey(jid)
    ensures Inv(EnqueueMessageCheck(q, jid))
  {
    hide CountsOk, WaitingOk, LedgerOk, RollbackOk, SitesOk;
    GetGroupInv(q, jid);
    var p := GetGroup(q, jid);
    assert EnqueueMessageCheck(q, jid) == EnqueueMessageCheck(p, jid);
    if p.slots[jid].active {
      QuietUpdateInv(p, jid, p.slots[jid].(pendingMessages := true));
    } else if p.activeCount >= p.cap {
      ParkChatInv(p, jid);
    } else {
      StartRunKeeps(p, jid, {});
    }
  }

  lemma ParkTaskWaiting(q: Queue, jid: string, taskId: string, fn: nat)
    requires WaitingOk(q, {}) && CountsOk(q)
    requires !TaskIsKnown(q, TaskSlotKey(jid, taskId)) && q.activeCount >= q.cap
    ensures WaitingOk(EnqueueTask(q, jid, taskId, fn), {})
    ensures TaskSlotKey(jid, taskId) !in q.waitingSlots
  {
    var key := TaskSlotKey(jid, taskId);
    TaskSlotKeyIsTaskKey(jid, taskId);
    FreshTaskKey(q, key);
    assert forall k :: k in EnqueueTask(q, jid, taskId, fn).waitingSlots <==> k in q.waitingSlots || k == key;
  }

  lemma TaskSlotIsActive(q: Queue, key: string)
    requires CountsOk(q) && IsTaskKey(key)
    ensures key in q.slots ==> key in ActiveKeys(q) && key in q.pendingRuns
  {}

  /** A task that is neither running nor waiting has no slot and no place in the waiting list. */
  lemma FreshTaskKey(q: Queue, key: string)
    requires WaitingOk(q, {}) && CountsOk(q) && IsTaskKey(key) && !TaskIsKnown(q, key)
    ensures key !in q.slots && key !in q.waitingSlots
  {}

  lemma ParkTaskTasks(q: Queue, jid: string, taskId: string, fn: nat)
    requires TasksOk(q) && TaskSlotKey(jid, taskId) !in q.waitingSlots
    requires !TaskIsKnown(q, TaskSlotKey(jid, taskId)) && q.activeCount >= q.cap
    ensures TasksOk(EnqueueTask(q, jid, taskId, fn))
  {
    var key := TaskSlotKey(jid, taskId);
    var q' := EnqueueTask(q, jid, taskId, fn);
    TasksOfAppend(q.waitingSlots, key, q'.waitingTaskFns);
    TasksOfOthers(q.waitingSlots, q.waitingTaskFns, q'.waitingTaskFns);
  }

  lemma ParkTaskInv(q: Queue, jid: string, taskId: string, fn: nat)
    requires Inv(q) && !TaskIsKnown(q, TaskSlotKey(jid, taskId)) && q.activeCount >= q.cap
    ensures Inv(EnqueueTask(q, jid, taskId, fn))
  {
    hide CountsOk, WaitingOk, LedgerOk, RollbackOk, SitesOk, TasksOk, IsTaskKey;
    var q' := EnqueueTask(q, jid, taskId, fn);
    ParkTaskWaiting(q, jid, taskId, fn);
    ParkTaskTasks(q, jid, taskId, fn);
    SameCounts(q, q');
    StandingsKeep(q, q', {}, {});
  }

  lemma StartTaskInv(q: Queue, jid: string, taskId: string, fn: nat)
    requires Inv(q) && !TaskIsKnown(q, TaskSlotKey(jid, taskId)) && q.activeCount < q.cap
    ensures Inv(EnqueueTask(q, jid, taskId, fn))
  {
    hide CountsOk, WaitingOk, LedgerOk, RollbackOk, SitesOk, IsTaskKey;
    var key := TaskSlotKey(jid, taskId);
    var task := QueuedTask(taskId, jid, fn);
    TaskSlotKeyIsTaskKey(jid, taskId);
    FreshTaskKey(q, key);
    StartTaskKeeps(q, key, jid, task);
    var p := StartTask(q, key, jid, task);
    assert EnqueueTask(q, jid, taskId, fn) == p.(accepted := q.accepted + [task]);
    SameHistory(p, p.(accepted := q.accepted + [task]));
  }

  lemma TaskDueInv(q: Queue, jid: string, taskId: string, fn: nat)
    requires Inv(q)
    ensures Inv(EnqueueTask(q, jid, taskId, fn))
  {
    hide Inv;
    if !TaskIsKnown(q, TaskSlotKey(jid, taskId)) {
      if q.activeCount >= q.cap {
        ParkTaskInv(q, jid, taskId, fn);
      } else {
        StartTaskInv(q, jid, taskId, fn);
      }
    }
  }

  lemma SameHistory(q: Queue, q': Queue)
    requires Mid(q, {}) && q' == q.(accepted := q'.accepted)
    ensures Mid(q', {})
  {}

  /** A release of a slot with no pending run, its pending flag possibly set on the way, then drainGroup. */
  lemma ReleaseAndDrainInv(q: Queue, jid: string, site: Site, pending: bool, proc: ProcessView)
    requires Inv(q) && !IsTaskKey(jid) && site != ByTaskFinally
    requires jid in ActiveKeys(q) && jid !in q.pendingRuns
    ensures var p := ReleaseSlot(q, jid, site);
            Inv(DrainGroup(SetSlot(p, jid, p.slots[jid].(pendingMessages := pending)), jid, proc))
  {
    hide CountsOk, WaitingOk, LedgerOk, RollbackOk, SitesOk;
    ActiveNotWaiting(q, jid);
    SlotBound(q, jid);
    var p := ReleaseSlot(q, jid, site);
    ReleaseKeeps(q, jid, site);
    SetSlotKeeps(p, jid, p.slots[jid].(pendingMessages := pending), {jid});
    DrainGroupKeeps(SetSlot(p, jid, p.slots[jid].(pendingMessages := pending)), jid, proc, {jid});
  }

  /** The promise settles: it is pending no more, its slot still active. */
  function NoLongerPending(q: Queue, jid: string): Queue {
    q.(pendingRuns := q.pendingRuns - multiset{jid})
  }

  lemma NoLongerPendingInv(q: Queue, jid: string)
    requires Inv(q) && !IsTaskKey(jid) && jid in q.pendingRuns
    ensures Inv(NoLongerPending(q, jid))
    ensures jid !in NoLongerPending(q, jid).pendingRuns
    ensures jid in ActiveKeys(NoLongerPending(q, jid))
  {
    hide WaitingOk, LedgerOk, RollbackOk, TasksOk;
    NoLongerPendingCounts(q, jid);
    NoLongerPendingRest(q, jid);
  }

  lemma NoLongerPendingCounts(q: Queue, jid: string)
    requires CountsOk(q) && !IsTaskKey(jid) && jid in q.pendingRuns
    ensures CountsOk(NoLongerPending(q, jid))
    ensures jid !in NoLongerPending(q, jid).pendingRuns
    ensures jid in ActiveKeys(NoLongerPending(q, jid)) && ActiveKeys(NoLongerPending(q, jid)) == ActiveKeys(q)
  {
    hide IsTaskKey;
  }

  /** The rest of the invariant does not look at the pending runs. */
  lemma NoLongerPendingRest(q: Queue, jid: string)
    requires WaitingOk(q, {}) && LedgerOk(q) && RollbackOk(q) && TasksOk(q)
    ensures WaitingOk(NoLongerPending(q, jid), {}) && LedgerOk(NoLongerPending(q, jid))
    ensures RollbackOk(NoLongerPending(q, jid)) && TasksOk(NoLongerPending(q, jid))
  {
    assert ActiveIds(NoLongerPending(q, jid)) == ActiveIds(q);
    assert ReleasedIds(NoLongerPending(q, jid)) == ReleasedIds(q);
  }

  lemma SetSlotSame(q: Queue, key: string)
    requires key in q.slots
    ensures SetSlot(q, key, q.slots[key]) == q
  {}

  lemma ReleaseAndDrainPlainInv(q: Queue, jid: string, site: Site, proc: ProcessView)
    requires Inv(q) && !IsTaskKey(jid) && site != ByTaskFinally
    requires jid in ActiveKeys(q) && jid !in q.pendingRuns
    ensures Inv(DrainGroup(ReleaseSlot(q, jid, site), jid, proc))
  {
    hide Inv;
    ReleaseAndDrainInv(q, jid, site, q.slots[jid].pendingMessages, proc);
    SetSlotSame(ReleaseSlot(q, jid, site), jid);
  }

  lemma KeptAliveInv(q: Queue, jid: string, proc: ProcessView)
    requires Inv(q) && !IsTaskKey(jid) && jid in ActiveKeys(q)
    requires q.slots[jid].idleWaiting && q.slots[jid].hasProcess && !proc.killed
    ensures Inv(DrainGroup(q, jid, proc))
  {
    hide CountsOk, WaitingOk, LedgerOk, RollbackOk, SitesOk;
    ActiveNotWaiting(q, jid);
    DrainGroupKeeps(q, jid, proc, {});
  }

  lemma RunSettlesInv(q: Queue, jid: string, outcome: RunOutcome, proc: ProcessView)
    requires Inv(q) && !IsTaskKey(jid) && jid in q.pendingRuns && jid in q.slots
    ensures Inv(SettleRun(q, jid, outcome, proc))
  {
    OutcomeBound(q, jid, outcome);
    hide Inv, IsTaskKey;
    OutcomeInv(q, jid, outcome);
    var s := AfterOutcome(q.slots[jid], outcome);
    hide EndRun, AfterOutcome, ActiveKeys;
    EndRunInv(SetSlot(NoLongerPending(q, jid), jid, s), jid, proc);
  }

  /** The outcome is booked. */
  lemma OutcomeInv(q: Queue, jid: string, outcome: RunOutcome)
    requires Inv(q) && !IsTaskKey(jid) && jid in q.pendingRuns && jid in q.slots
    requires AfterOutcome(q.slots[jid], outcome).retryCount <= MAX_RETRIES
    ensures var q' := SetSlot(NoLongerPending(q, jid), jid, AfterOutcome(q.slots[jid], outcome));
            Inv(q') && jid in ActiveKeys(q') && jid !in q'.pendingRuns
  {
    hide Inv, IsTaskKey;
    NoLongerPendingInv(q, jid);
    QuietUpdateInv(NoLongerPending(q, jid), jid, AfterOutcome(q.slots[jid], outcome));
  }

  lemma EndRunInv(q: Queue, jid: string, proc: ProcessView)
    requires Inv(q) && !IsTaskKey(jid) && jid in ActiveKeys(q) && jid !in q.pendingRuns
    ensures Inv(EndRun(q, jid, proc))
  {
    hide Inv, IsTaskKey, DrainGroup, ReleaseSlot;
    var s := q.slots[jid];
    if s.hasProcess && proc.Alive() && s.idleWaiting {
      KeptAliveInv(q, jid, proc);
    } else {
      ReleaseAndDrainPlainInv(q, jid, ByRunFinally, proc);
    }
  }

  lemma OutcomeBound(q: Queue, jid: string, outcome: RunOutcome)
    requires CountsOk(q) && jid in q.slots
    ensures AfterOutcome(q.slots[jid], outcome).retryCount <= MAX_RETRIES
  {}

  lemma TaskSettlesInv(q: Queue, key: string)
    requires Inv(q) && IsTaskKey(key) && key in q.slots
    ensures Inv(SettleTask(q, key))
  {
    hide CountsOk, WaitingOk, LedgerOk, RollbackOk, SitesOk;
    DropTaskKeeps(q, key);
    DrainWaitingKeeps(DropTask(q, key));
  }

  lemma ExitedInv(q: Queue, key: string, staleFiles: bool)
    requires Inv(q) && key in q.slots && Disciplined(q, Exited(key, staleFiles))
    ensures Inv(ProcessExit(q, key, staleFiles))
  {
    hide CountsOk, WaitingOk, LedgerOk, RollbackOk, SitesOk, TasksOk, Busy;
    var s := q.slots[key];
    if ReleasesOnExit(s) {
      TaskSlotPending(q, key);
      SlotBound(q, key);
      var s' := if s.groupFolder.Some? && staleFiles then s.(pendingMessages := true) else s;
      QuietUpdateInv(q, key, s');
      ReleaseAndDrainPlainInv(SetSlot(q, key, s'), key, ByExitHandler, ProcessView(true, false));
    }
  }

  lemma TaskSlotPending(q: Queue, key: string)
    requires CountsOk(q) && key in q.slots && key !in q.pendingRuns
    ensures q.slots[key].taskId.None?
  {}

  lemma SentInv(q: Queue, jid: string, text: string, cursor: string, proc: ProcessView, written: bool)
    requires Inv(q) && !IsTaskKey(jid)
    requires Disciplined(q, Sent(jid, text, cursor, proc, written))
    ensures Inv(SendMessage(q, jid, text, cursor, proc, written).0)
  {
    hide Inv;
    GetGroupInv(q, jid);
    var p := GetGroup(q, jid);
    var s := p.slots[jid];
    if Sendable(s) {
      if s.hasProcess && proc.exited {
        ReleaseAndDrainInv(p, jid, BySendToDead, true, proc);
      } else {
        QuietUpdateInv(p, jid, s.(idleWaiting := false));
        if written {
          PipeInv(p, jid, s.(idleWaiting := false), text, cursor);
        }
      }
    }
  }

  lemma PipeInv(q: Queue, jid: string, s: Slot, text: string, cursor: string)
    requires Inv(q) && !IsTaskKey(jid) && jid in ActiveKeys(q) && s == q.slots[jid].(idleWaiting := false)
    ensures Inv(SetSlot(q, jid, PipeInto(s, text, cursor)).(marks := q.marks + [Piped(jid, cursor, text)]))
  {
    hide CountsOk, WaitingOk, LedgerOk, RollbackOk, SitesOk;
    SlotBound(q, jid);
    ChatHasNoTask(q, jid);
    PipeRollback(q, jid, s, text, cursor);
    MarkedSetKeeps(q, jid, PipeInto(s, text, cursor), Piped(jid, cursor, text));
  }

  lemma ChatHasNoTask(q: Queue, key: string)
    requires CountsOk(q) && key in q.slots && !IsTaskKey(key)
    ensures q.slots[key].taskId.None?
  {
    assert SlotOk(key, q.slots[key]);
  }

  lemma PipeRollback(q: Queue, jid: string, s: Slot, text: string, cursor: string)
    requires RollbackOk(q) && jid in ActiveKeys(q) && q.slots[jid].taskId.None?
    requires s == q.slots[jid].(idleWaiting := false)
    ensures RollbackOk(SetSlot(q, jid, PipeInto(s, text, cursor)).(marks := q.marks + [Piped(jid, cursor, text)]))
  {
    var m := Piped(jid, cursor, text);
    var q' := SetSlot(q, jid, PipeInto(s, text, cursor)).(marks := q.marks + [m]);
    OneMoreMark(q.marks, m, jid, false);
    OneMoreMark(q.marks, m, jid, true);
    FirstCursorNonEmpty(SinceReset(q.marks, jid, false), jid);
    assert First(CursorsSinceReset(q.marks, jid, false)) == RollbackOf(q, jid);
    assert First(CursorsSinceReset(q.marks, jid, true)) == ActiveRollbackOf(q, jid);
    MarkKeepsRollback(q, m, q');
  }

  lemma FirstCursorNonEmpty(marks: seq<Mark>, key: string)
    ensures Falsy(First(Cursors(marks, key))) <==> Cursors(marks, key) == []
  {}

  lemma AgentOutputInv(q: Queue, jid: string)
    requires Inv(q) && !IsTaskKey(jid)
    ensures Inv(NotifyAgentOutput(q, jid))
  {
    hide CountsOk, WaitingOk, LedgerOk, RollbackOk, SitesOk, TasksOk, Busy;
    GetGroupInv(q, jid);
    var p := GetGroup(q, jid);
    var s := OutputSeen(p.slots[jid]);
    ResetKeepsRollback(p, Output(jid), SetSlot(p, jid, s).(marks := p.marks + [Output(jid)]));
    MarkedSetKeeps(p, jid, s, Output(jid));
    FromMid(p, NotifyAgentOutput(q, jid));
  }

  lemma RetryRequestedInv(q: Queue, jid: string, proc: ProcessView, written: bool)
    requires Inv(q) && !IsTaskKey(jid)
    requires Disciplined(q, RetryRequested(jid, proc, written))
    ensures Inv(RequestDeliveryRetry(q, jid, proc, written).0)
  {
    hide Inv, SendMessage;
    GetGroupInv(q, jid);
    var p := GetGroup(q, jid);
    var s := p.slots[jid];
    if HasRetryTurn(s) {
      var s' := TurnTaken(s);
      QuietUpdateInv(p, jid, s');
      var (cursor, text) := (s.currentTurnStartCursor.value, s.currentTurnText.value);
      SentInv(SetSlot(p, jid, s'), jid, text, cursor, proc, written);
      var r := SendMessage(SetSlot(p, jid, s'), jid, text, cursor, proc, written).0;
      GetGroupInv(r, jid);
      var g := GetGroup(r, jid);
      QuietUpdateInv(g, jid, g.slots[jid].(currentTurnStartCursor := Some(cursor), currentTurnText := Some(text)));
    }
  }

  /** A chat slot update through getGroup that leaves its standing and pending flag alone. */
  lemma QuietGroupUpdateInv(q: Queue, jid: string, s: Slot)
    requires Inv(q) && !IsTaskKey(jid)
    requires SameStanding(GetGroup(q, jid).slots[jid], s) && s.retryCount == GetGroup(q, jid).slots[jid].retryCount
    requires s.active || s.pendingMessages == GetGroup(q, jid).slots[jid].pendingMessages
    ensures Inv(SetSlot(GetGroup(q, jid), jid, s))
  {
    hide Mid, TasksOk;
    GetGroupInv(q, jid);
    QuietUpdateInv(GetGroup(q, jid), jid, s);
  }

  lemma RegisteredInv(q: Queue, key: string, groupFolder: string)
    requires Inv(q)
    ensures Inv(RegisterProcess(q, key, groupFolder))
  {
    if key in q.slots {
      SlotBound(q, key);
      var s := q.slots[key].(hasProcess := true);
      hide Mid, TasksOk;
      QuietUpdateInv(q, key, if groupFolder != "" then s.(groupFolder := Some(groupFolder)) else s);
    } else if !IsTaskKey(key) {
      var s := GetGroup(q, key).slots[key].(hasProcess := true);
      hide Mid, TasksOk;
      QuietGroupUpdateInv(q, key, if groupFolder != "" then s.(groupFolder := Some(groupFolder)) else s);
    }
  }

  lemma TaskIdleInv(q: Queue, jid: string, taskId: string)
    requires Inv(q)
    ensures Inv(NotifyTaskIdle(q, jid, taskId))
  {
    var key := TaskSlotKey(jid, taskId);
    if key in q.slots {
      SlotBound(q, key);
      hide Mid, TasksOk;
      QuietUpdateInv(q, key, q.slots[key].(idleWaiting := true));
    }
  }

  /** Every step that is possible and keeps the discipline keeps the invariant. */
  lemma StepInv(q: Queue, e: Event)
    requires Inv(q) && Possible(q, e) && Disciplined(q, e)
    ensures Inv(Step(q, e))
  {
    hide Mid, TasksOk, Busy;
    match e {
      case MessageCheck(jid) => MessageCheckInv(q, jid);
      case TaskDue(jid, taskId, fn) => TaskDueInv(q, jid, taskId, fn);
      case RunSettles(jid, outcome, proc) => RunSettlesInv(q, jid, outcome, proc);
      case TaskSettles(key) => TaskSettlesInv(q, key);
      case Registered(key, groupFolder) => RegisteredInv(q, key, groupFolder);
      case Exited(key, staleFiles) => ExitedInv(q, key, staleFiles);
      case TaskIdle(jid, taskId) => TaskIdleInv(q, jid, taskId);
      case Sent(jid, text, cursor, proc, written) => SentInv(q, jid, text, cursor, proc, written);
      case AgentOutput(jid) => AgentOutputInv(q, jid);
      case RetryRequested(jid, proc, written) => RetryRequestedInv(q, jid, proc, written);
      case Idle(jid) => QuietGroupUpdateInv(q, jid, GetGroup(q, jid).slots[jid].(idleWaiting := true));
      case CursorSet(jid, cursor) =>
        QuietGroupUpdateInv(q, jid, GetGroup(q, jid).slots[jid].(currentTurnStartCursor := Some(cursor)));
      case UserDelivery(jid) =>
        QuietGroupUpdateInv(q, jid,
          GetGroup(q, jid).slots[jid].(currentTurnStartCursor := None, currentTurnText := None));
      case Looked(jid) => GetGroupInv(q, jid);
      case Recycled(jid, proc) =>
        GetGroupInv(q, jid);
        if RecycleIdle(q, jid, proc).1 {
          QuietGroupUpdateInv(q, jid, GetGroup(q, jid).slots[jid].(pendingMessages := true));
        }
      case Killed(jid) =>
        GetGroupInv(q, jid);
        if KillActive(q, jid).1 {
          QuietGroupUpdateInv(q, jid, GetGroup(q, jid).slots[jid].(pendingMessages := false));
        }
    }
  }

  /** A good state and an event that is possible and disciplined. */
  ghost predicate GoodStep(q: Queue, e: Event) {
    Inv(q) && Possible(q, e) && Disciplined(q, e)
  }

  lemma GoodStepInv(q: Queue, e: Event)
    ensures GoodStep(q, e) ==> Possible(q, e) && Inv(Step(q, e))
  {
    hide Inv;
    if GoodStep(q, e) {
      StepInv(q, e);
    }
  }

  // ------------------------------------------------------------------ runs

  predicate LegalRun(q: Queue, events: seq<Event>)
    decreases |events|
  {
    events == [] ||
    (Possible(q, events[0]) && Disciplined(q, events[0]) && LegalRun(Step(q, events[0]), events[1..]))
  }

  function Exec(q: Queue, events: seq<Event>): Queue
    requires LegalRun(q, events)
    decreases |events|
  {
    if events == [] then q else Exec(Step(q, events[0]), events[1..])
  }

  lemma FirstEvent(q: Queue, e: Event, rest: seq<Event>)
    ensures LegalRun(q, [e] + rest) <==> Possible(q, e) && Disciplined(q, e) && LegalRun(Step(q, e), rest)
    ensures LegalRun(q, [e] + rest) ==> Exec(q, [e] + rest) == Exec(Step(q, e), rest)
  {
    hide Step, Possible, Disciplined;
    assert ([e] + rest)[1..] == rest;
  }

  /** An event that can come next. */
  lemma NextIs(q: Queue, e: Event, q': Queue, rest: seq<Event>)
    requires Possible(q, e) && Disciplined(q, e) && Step(q, e) == q' && LegalRun(q', rest)
    ensures LegalRun(q, [e] + rest) && Exec(q, [e] + rest) == Exec(q', rest)
  {
    hide Possible, Disciplined, Step;
    FirstEvent(q, e, rest);
  }

  lemma {:induction false} RunInv(q: Queue, events: seq<Event>)
    requires Inv(q) && LegalRun(q, events)
    ensures Inv(Exec(q, events))
    decreases |events|
  {
    hide Inv;
    if events == [] {
    } else {
      StepInv(q, events[0]);
      RunInv(Step(q, events[0]), events[1..]);
    }
  }

  lemma NewQueueInv(cap: nat)
    ensures Inv(NewQueue(cap))
  {}

  /** Any run of events, disciplined or not. */
  ghost predicate PossibleRun(q: Queue, events: seq<Event>)
    decreases |events|
  {
    events == [] || (Possible(q, events[0]) && PossibleRun(Step(q, events[0]), events[1..]))
  }

  function Run(q: Queue, events: seq<Event>): Queue
    requires PossibleRun(q, events)
    decreases |events|
  {
    if events == [] then q else Run(Step(q, events[0]), events[1..])
  }
}
