/** The rollback cursor, in every run there is: nothing here depends on the scheduler's discipline. */
module QueueCursors {
  import opened Options
  import opened QueueModel
  import opened QueueInvariants
  import opened QueueMoves
  import opened QueueRuns

  /** The cursors of chats follow the history; task slots have none. */
  ghost predicate CursorsOk(q: Queue) {
    && RollbackOk(q)
    && (forall k :: k in q.slots && !IsTaskKey(k) ==> q.slots[k].taskId.None?)
    && (forall k :: k in q.slots && IsTaskKey(k) ==> q.slots[k].inFlightCursorRollback.None?)
    && (forall k :: k in q.waitingTaskFns ==> IsTaskKey(k))
  }

  // ------------------------------------------------------------------ the primitive moves

  /** Slots keep their standing or are new, without a task if they are chats'. */
  lemma StandingsKeepCursors(q: Queue, q': Queue)
    requires CursorsOk(q) && SameStandings(q, q')
    requires forall k :: k in q'.slots && k !in q.slots && !IsTaskKey(k) ==> q'.slots[k].taskId.None?
    requires forall k :: k in q'.waitingTaskFns ==> IsTaskKey(k)
    ensures CursorsOk(q')
  {
    StandingsKeepRollback(q, q');
    hide RollbackOk, IsTaskKey;
  }

  lemma GetGroupCursors(q: Queue, key: string)
    requires CursorsOk(q)
    ensures CursorsOk(GetGroup(q, key))
  {
    hide RollbackOk, IsTaskKey;
    StandingsKeepCursors(q, GetGroup(q, key));
  }

  lemma SetSlotCursors(q: Queue, key: string, s: Slot)
    requires CursorsOk(q) && key in q.slots && SameStanding(q.slots[key], s)
    ensures CursorsOk(SetSlot(q, key, s))
  {
    hide RollbackOk, IsTaskKey;
    StandingsKeepCursors(q, SetSlot(q, key, s));
  }

  /** The marks and the slots decide. */
  lemma SameCursors(q: Queue, q': Queue)
    requires CursorsOk(q) && q'.slots == q.slots && q'.marks == q.marks
    requires forall k :: k in q'.waitingTaskFns ==> IsTaskKey(k)
    ensures CursorsOk(q')
  {
    hide IsTaskKey;
  }

  /** A mark that resets the slot, whose cursor is cleared. */
  lemma ResetCursors(q: Queue, m: Mark, q': Queue)
    requires CursorsOk(q) && q'.marks == q.marks + [m] && Resets(m, m.key, false)
    requires q'.slots.Keys == q.slots.Keys + {m.key} && q'.slots - {m.key} == q.slots - {m.key}
    requires q'.slots[m.key].inFlightCursorRollback.None?
    requires !IsTaskKey(m.key) ==> q'.slots[m.key].taskId.None?
    requires forall k :: k in q'.waitingTaskFns ==> IsTaskKey(k)
    ensures CursorsOk(q')
  {
    OthersSame(q, q', m.key);
    ResetKeepsRollback(q, m, q');
    hide RollbackOk, IsTaskKey;
  }

  lemma OthersSame(q: Queue, q': Queue, key: string)
    requires q'.slots - {key} == q.slots - {key}
    ensures forall k :: k != key ==>
              (k in q'.slots <==> k in q.slots) && (k in q.slots ==> q'.slots[k] == q.slots[k])
  {
    forall k | k != key
      ensures (k in q'.slots <==> k in q.slots) && (k in q.slots ==> q'.slots[k] == q.slots[k])
    {
      assert k in q'.slots - {key} <==> k in q.slots - {key};
      assert k in q.slots ==> (q'.slots - {key})[k] == (q.slots - {key})[k];
    }
  }

  lemma StartRunCursors(q: Queue, jid: string)
    requires CursorsOk(q)
    ensures CursorsOk(StartRun(q, jid))
  {
    hide RollbackOk, IsTaskKey;
    ResetCursors(q, Started(jid), StartRun(q, jid));
  }

  lemma StartTaskCursors(q: Queue, key: string, chatJid: string, task: QueuedTask)
    requires CursorsOk(q) && IsTaskKey(key)
    ensures CursorsOk(StartTask(q, key, chatJid, task))
  {
    hide RollbackOk, IsTaskKey;
    ResetCursors(q, Started(key), StartTask(q, key, chatJid, task));
  }

  lemma ReleaseCursors(q: Queue, key: string, site: Site)
    requires CursorsOk(q) && key in q.slots && site != ByTaskFinally
    ensures CursorsOk(ReleaseSlot(q, key, site))
  {
    ReleaseRollback(q, key, site);
    hide RollbackOk, IsTaskKey;
  }

  lemma DropTaskCursors(q: Queue, key: string)
    requires CursorsOk(q) && key in q.slots && IsTaskKey(key)
    ensures CursorsOk(DropTask(q, key))
  {
    DropTaskRollback(q, key);
    hide RollbackOk, IsTaskKey;
  }

  // ------------------------------------------------------------------ draining, sending, retrying

  lemma NextWaitingCursors(q: Queue)
    requires CursorsOk(q) && q.waitingSlots != []
    ensures CursorsOk(StartNextWaiting(q))
  {
    hide RollbackOk, IsTaskKey, StartRun, StartTask;
    var next := q.waitingSlots[0];
    var p := q.(waitingSlots := q.waitingSlots[1..]);
    SameCursors(q, p);
    if next in q.waitingTaskFns {
      var task := q.waitingTaskFns[next];
      var r := p.(waitingTaskFns := p.waitingTaskFns - {next});
      SameCursors(q, r);
      StartTaskCursors(r, next, task.groupJid, task);
    } else {
      GetGroupCursors(p, next);
      StartRunCursors(GetGroup(p, next), next);
    }
  }

  lemma {:induction false} DrainWaitingCursors(q: Queue)
    requires CursorsOk(q)
    ensures CursorsOk(DrainWaiting(q))
    decreases |q.waitingSlots|
  {
    hide CursorsOk;
    if q.waitingSlots == [] || q.activeCount >= q.cap {
    } else {
      NextWaitingCursors(q);
      DrainWaitingCursors(StartNextWaiting(q));
    }
  }

  lemma FetchedCursors(q: Queue, q': Queue)
    requires CursorsOk(q) && q' == q.(fetched := q'.fetched)
    ensures CursorsOk(q')
  {
    hide IsTaskKey;
  }

  lemma DrainGroupCursors(q: Queue, jid: string, proc: ProcessView)
    requires CursorsOk(q)
    ensures CursorsOk(DrainGroup(q, jid, proc))
  {
    hide CursorsOk, StartRun, DrainWaiting;
    GetGroupCursors(q, jid);
    var p := GetGroup(q, jid);
    var handed := SetSlot(p, jid, p.slots[jid].(pendingMessages := false));
    SetSlotCursors(p, jid, p.slots[jid].(pendingMessages := false));
    FetchedCursors(handed, handed.(fetched := p.fetched + [jid]));
    StartRunCursors(p, jid);
    DrainWaitingCursors(p);
  }

  lemma PipeCursors(q: Queue, jid: string, s: Slot, text: string, cursor: string)
    requires CursorsOk(q) && !IsTaskKey(jid) && jid in ActiveKeys(q) && s == q.slots[jid].(idleWaiting := false)
    ensures CursorsOk(SetSlot(q, jid, PipeInto(s, text, cursor)).(marks := q.marks + [Piped(jid, cursor, text)]))
  {
    PipeRollback(q, jid, s, text, cursor);
    hide RollbackOk, IsTaskKey, PipeInto;
    assert PipeInto(s, text, cursor).taskId == s.taskId by {
      PipeKeepsTask(s, text, cursor);
    }
  }

  lemma PipeKeepsTask(s: Slot, text: string, cursor: string)
    ensures PipeInto(s, text, cursor).taskId == s.taskId
  {}

  lemma SendMessageCursors(q: Queue, jid: string, text: string, cursor: string, proc: ProcessView, written: bool)
    requires CursorsOk(q) && !IsTaskKey(jid)
    ensures CursorsOk(SendMessage(q, jid, text, cursor, proc, written).0)
  {
    hide CursorsOk, DrainGroup, PipeInto;
    GetGroupCursors(q, jid);
    var p := GetGroup(q, jid);
    var s := p.slots[jid];
    if FindsDead(s, proc) {
      ReleaseCursors(p, jid, BySendToDead);
      var r := ReleaseSlot(p, jid, BySendToDead);
      SetSlotCursors(r, jid, r.slots[jid].(pendingMessages := true));
      DrainGroupCursors(SetSlot(r, jid, r.slots[jid].(pendingMessages := true)), jid, proc);
    } else if Sendable(s) {
      SetSlotCursors(p, jid, s.(idleWaiting := false));
      PipeCursors(p, jid, s.(idleWaiting := false), text, cursor);
    }
  }

  lemma RetryCursors(q: Queue, jid: string, proc: ProcessView, written: bool)
    requires CursorsOk(q) && !IsTaskKey(jid)
    ensures CursorsOk(RequestDeliveryRetry(q, jid, proc, written).0)
  {
    hide CursorsOk, SendMessage;
    GetGroupCursors(q, jid);
    var p := GetGroup(q, jid);
    var s := p.slots[jid];
    if HasRetryTurn(s) {
      var (cursor, text) := (s.currentTurnStartCursor.value, s.currentTurnText.value);
      SetSlotCursors(p, jid, TurnTaken(s));
      SendMessageCursors(SetSlot(p, jid, TurnTaken(s)), jid, text, cursor, proc, written);
      var r := SendMessage(SetSlot(p, jid, TurnTaken(s)), jid, text, cursor, proc, written).0;
      GetGroupCursors(r, jid);
      var g := GetGroup(r, jid);
      SetSlotCursors(g, jid, g.slots[jid].(currentTurnStartCursor := Some(cursor), currentTurnText := Some(text)));
    }
  }

  // ------------------------------------------------------------------ each event

  lemma RunSettlesCursors(q: Queue, jid: string, outcome: RunOutcome, proc: ProcessView)
    requires CursorsOk(q) && jid in q.slots
    ensures CursorsOk(SettleRun(q, jid, outcome, proc))
  {
    hide RollbackOk, IsTaskKey, DrainGroup;
    var s := AfterOutcome(q.slots[jid], outcome);
    SetSlotCursors(q, jid, s);
    var p := SetSlot(q, jid, s).(pendingRuns := q.pendingRuns - multiset{jid});
    SameCursors(SetSlot(q, jid, s), p);
    hide CursorsOk;
    ReleaseCursors(p, jid, ByRunFinally);
    DrainGroupCursors(if s.hasProcess && proc.Alive() && s.idleWaiting then p else ReleaseSlot(p, jid, ByRunFinally),
                      jid, proc);
  }

  lemma ExitedCursors(q: Queue, key: string, staleFiles: bool)
    requires CursorsOk(q) && key in q.slots
    ensures CursorsOk(ProcessExit(q, key, staleFiles))
  {
    hide CursorsOk, DrainGroup;
    var s := q.slots[key];
    if ReleasesOnExit(s) {
      var s' := if s.groupFolder.Some? && staleFiles then s.(pendingMessages := true) else s;
      SetSlotCursors(q, key, s');
      ReleaseCursors(SetSlot(q, key, s'), key, ByExitHandler);
      DrainGroupCursors(ReleaseSlot(SetSlot(q, key, s'), key, ByExitHandler), s.chatJid, ProcessView(true, false));
    }
  }

  lemma MessageCheckCursors(q: Queue, jid: string)
    requires CursorsOk(q)
    ensures CursorsOk(EnqueueMessageCheck(q, jid))
  {
    hide RollbackOk, IsTaskKey, StartRun;
    GetGroupCursors(q, jid);
    var p := GetGroup(q, jid);
    var marked := SetSlot(p, jid, p.slots[jid].(pendingMessages := true));
    SetSlotCursors(p, jid, p.slots[jid].(pendingMessages := true));
    SameCursors(marked, marked.(waitingSlots := marked.waitingSlots + [jid]));
    StartRunCursors(p, jid);
  }

  lemma TaskDueCursors(q: Queue, jid: string, taskId: string, fn: nat)
    requires CursorsOk(q)
    ensures CursorsOk(EnqueueTask(q, jid, taskId, fn))
  {
    var key := TaskSlotKey(jid, taskId);
    TaskSlotKeyIsTaskKey(jid, taskId);
    hide RollbackOk, IsTaskKey, StartTask, TaskSlotKey;
    var q' := EnqueueTask(q, jid, taskId, fn);
    if !TaskIsKnown(q, key) && q.activeCount < q.cap {
      var task := QueuedTask(taskId, jid, fn);
      SameCursors(q, q.(accepted := q.accepted + [task]));
      StartTaskCursors(q.(accepted := q.accepted + [task]), key, jid, task);
    } else {
      SameCursors(q, q');
    }
  }

  lemma RegisteredCursors(q: Queue, key: string, groupFolder: string)
    requires CursorsOk(q)
    ensures CursorsOk(RegisterProcess(q, key, groupFolder))
  {
    hide CursorsOk, IsTaskKey;
    GetGroupCursors(q, key);
    var p := GetGroup(q, key);
    var s := p.slots[key].(hasProcess := true);
    SetSlotCursors(p, key, if groupFolder != "" then s.(groupFolder := Some(groupFolder)) else s);
  }

  lemma OutputCursors(q: Queue, jid: string)
    requires CursorsOk(q)
    ensures CursorsOk(NotifyAgentOutput(q, jid))
  {
    hide RollbackOk, IsTaskKey;
    ResetCursors(q, Output(jid), NotifyAgentOutput(q, jid));
  }

  /** An update of one slot that keeps its standing. */
  lemma UpdateCursors(q: Queue, key: string, s: Slot)
    requires CursorsOk(q) && SameStanding(GetGroup(q, key).slots[key], s)
    ensures CursorsOk(SetSlot(GetGroup(q, key), key, s))
  {
    hide CursorsOk, SameStanding, GetGroup;
    GetGroupCursors(q, key);
    SetSlotCursors(GetGroup(q, key), key, s);
  }

  lemma FlagCursors(q: Queue, e: Event)
    requires CursorsOk(q) && Possible(q, e) && (e.Idle? || e.Recycled? || e.Killed?)
    ensures CursorsOk(Step(q, e))
  {
    hide CursorsOk, IsTaskKey, GetGroup;
    GetGroupCursors(q, e.jid);
    var s := GetGroup(q, e.jid).slots[e.jid];
    UpdateCursors(q, e.jid, s.(idleWaiting := true));
    UpdateCursors(q, e.jid, s.(pendingMessages := e.Recycled?));
  }

  lemma TurnCursors(q: Queue, e: Event)
    requires CursorsOk(q) && Possible(q, e) && (e.CursorSet? || e.UserDelivery? || e.Looked?)
    ensures CursorsOk(Step(q, e))
  {
    hide CursorsOk, IsTaskKey, GetGroup;
    GetGroupCursors(q, e.jid);
    var s := GetGroup(q, e.jid).slots[e.jid];
    UpdateCursors(q, e.jid, s.(currentTurnStartCursor := None, currentTurnText := None));
    if e.CursorSet? {
      UpdateCursors(q, e.jid, s.(currentTurnStartCursor := Some(e.cursor)));
    }
  }

  lemma TaskIdleCursors(q: Queue, jid: string, taskId: string)
    requires CursorsOk(q)
    ensures CursorsOk(NotifyTaskIdle(q, jid, taskId))
  {
    hide CursorsOk, TaskSlotKey;
    var key := TaskSlotKey(jid, taskId);
    if key in q.slots {
      SetSlotCursors(q, key, q.slots[key].(idleWaiting := true));
    }
  }

  lemma StepCursors(q: Queue, e: Event)
    requires CursorsOk(q) && Possible(q, e)
    ensures CursorsOk(Step(q, e))
  {
    hide CursorsOk, IsTaskKey;
    match e {
      case MessageCheck(jid) => MessageCheckCursors(q, jid);
      case TaskDue(jid, taskId, fn) => TaskDueCursors(q, jid, taskId, fn);
      case RunSettles(jid, outcome, proc) => RunSettlesCursors(q, jid, outcome, proc);
      case TaskSettles(key) =>
        DropTaskCursors(q, key);
        DrainWaitingCursors(DropTask(q, key));
      case Registered(key, groupFolder) => RegisteredCursors(q, key, groupFolder);
      case Exited(key, staleFiles) => ExitedCursors(q, key, staleFiles);
      case Sent(jid, text, cursor, proc, written) => SendMessageCursors(q, jid, text, cursor, proc, written);
      case AgentOutput(jid) => OutputCursors(q, jid);
      case RetryRequested(jid, proc, written) => RetryCursors(q, jid, proc, written);
      case TaskIdle(jid, taskId) => TaskIdleCursors(q, jid, taskId);
      case _ =>
        if e.CursorSet? || e.UserDelivery? || e.Looked? {
          TurnCursors(q, e);
        } else {
          FlagCursors(q, e);
        }
    }
  }

  lemma {:induction false} RunCursors(q: Queue, events: seq<Event>)
    requires CursorsOk(q) && PossibleRun(q, events)
    ensures CursorsOk(Run(q, events))
    decreases |events|
  {
    hide CursorsOk, Step, Possible;
    if events == [] {
    } else {
      StepCursors(q, events[0]);
      RunCursors(Step(q, events[0]), events[1..]);
    }
  }

  lemma NewQueueCursors(cap: nat)
    ensures CursorsOk(NewQueue(cap))
  {}

  // ------------------------------------------------------------------ the theorems

  /** In every run, disciplined or not, the rollback cursor is the first non-empty cursor piped since the last output,
      run start, or release by the exit handler or by a send to a dead process. Counting releases by runForGroup's
      finally block too, this fails for an inactive slot that still carries a cursor, and only for such; which event
      leaves one is the subject of QueueRollback. */
  lemma RollbackIsFirstPiped(cap: nat, events: seq<Event>, jid: string)
    requires PossibleRun(NewQueue(cap), events) && jid in Run(NewQueue(cap), events).slots
    ensures var q := Run(NewQueue(cap), events);
            var s := q.slots[jid];
            && s.inFlightCursorRollback == First(CursorsSinceReset(q.marks, jid, false))
            && (s.inFlightCursorRollback == First(CursorsSinceReset(q.marks, jid, true))
                <==> s.active || s.inFlightCursorRollback == None)
  {
    hide *;
    NewQueueCursors(cap);
    RunCursors(NewQueue(cap), events);
    CursorsFollowHistory(Run(NewQueue(cap), events), jid);
  }

  lemma CursorsFollowHistory(q: Queue, jid: string)
    requires CursorsOk(q) && jid in q.slots
    ensures var s := q.slots[jid];
            && s.inFlightCursorRollback == First(CursorsSinceReset(q.marks, jid, false))
            && First(CursorsSinceReset(q.marks, jid, true)) == if s.active then s.inFlightCursorRollback else None
  {
    assert First(CursorsSinceReset(q.marks, jid, false)) == RollbackOf(q, jid);
    assert First(CursorsSinceReset(q.marks, jid, true)) == ActiveRollbackOf(q, jid);
  }

  ghost predicate NonDecreasing(cursors: seq<string>, rank: string -> int) {
    forall i, j :: 0 <= i < j < |cursors| ==> rank(cursors[i]) <= rank(cursors[j])
  }

  /** When cursors are piped in non-decreasing order, the rollback that the exit listener reports is at or before every
      cursor piped in the period, and it is lost only if none was non-empty. */
  lemma ReportedRollbackCovers(cap: nat, events: seq<Event>, jid: string, rank: string -> int)
    requires PossibleRun(NewQueue(cap), events) && jid in Run(NewQueue(cap), events).slots
    requires var s := Run(NewQueue(cap), events).slots[jid];
             ReleasesOnExit(s) && s.pipedSinceOutput > 0 && !s.agentHasOutput
    requires NonDecreasing(CursorsSinceReset(Run(NewQueue(cap), events).marks, jid, true), rank)
    ensures var q := Run(NewQueue(cap), events);
            var cursors := CursorsSinceReset(q.marks, jid, true);
            && ReportOnExit(q.slots[jid]) == Called(First(cursors))
            && (forall c :: c in cursors ==> rank(First(cursors).value) <= rank(c))
  {
    RollbackIsFirstPiped(cap, events, jid);
  }
}
