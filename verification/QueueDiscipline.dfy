/** The discipline that the accounting needs, and nothing weaker: whoever acts on a process death while a run of the
    slot is pending makes the count of active slots wrong, at once or in some disciplined run that follows. */
module QueueDiscipline {
  import opened Options
  import opened QueueModel
  import opened QueueInvariants
  import opened QueueMoves
  import opened QueueDraining
  import opened QueueRuns

  /** By how much activeCount is more than the number of active slots. */
  function Excess(q: Queue): int {
    q.activeCount - |ActiveKeys(q)|
  }

  /** What is left of the order of the waiting list when the invariant is broken: draining it starts inactive slots
      only. */
  ghost predicate Drainable(q: Queue) {
    && NoDup(q.waitingSlots)
    && (forall k :: k in q.waitingTaskFns ==> IsTaskKey(k))
    && (forall k :: k in q.waitingSlots && k in ActiveKeys(q) ==> k !in q.waitingTaskFns && !q.slots[k].pendingMessages)
  }

  // ------------------------------------------------------------------ moves and the excess

  lemma GetGroupExcess(q: Queue, jid: string)
    ensures ActiveKeys(GetGroup(q, jid)) == ActiveKeys(q)
  {
    assert ActiveKeys(GetGroup(q, jid)) == ActiveKeys(q);
  }

  lemma StartRunExcess(q: Queue, jid: string)
    requires jid !in ActiveKeys(q)
    ensures ActiveKeys(StartRun(q, jid)) == ActiveKeys(q) + {jid}
    ensures Excess(StartRun(q, jid)) == Excess(q)
  {
    assert ActiveKeys(StartRun(q, jid)) == ActiveKeys(q) + {jid};
  }

  lemma StartTaskExcess(q: Queue, key: string, chatJid: string, task: QueuedTask)
    requires key !in ActiveKeys(q)
    ensures ActiveKeys(StartTask(q, key, chatJid, task)) == ActiveKeys(q) + {key}
    ensures Excess(StartTask(q, key, chatJid, task)) == Excess(q)
  {
    assert ActiveKeys(StartTask(q, key, chatJid, task)) == ActiveKeys(q) + {key};
  }

  lemma ReleaseExcess(q: Queue, key: string, site: Site)
    requires key in q.slots
    ensures ActiveKeys(ReleaseSlot(q, key, site)) == ActiveKeys(q) - {key}
    ensures Excess(ReleaseSlot(q, key, site)) == Excess(q) - (if key in ActiveKeys(q) then 0 else 1)
  {
    assert ActiveKeys(ReleaseSlot(q, key, site)) == ActiveKeys(q) - {key};
  }

  lemma NextTaskExcess(q: Queue)
    requires Drainable(q) && q.waitingSlots != [] && q.waitingSlots[0] in q.waitingTaskFns
    ensures Drainable(StartNextWaiting(q)) && Excess(StartNextWaiting(q)) == Excess(q)
  {
    hide IsTaskKey;
    var next := q.waitingSlots[0];
    var task := q.waitingTaskFns[next];
    var p := PopTask(q);
    HeadOfWaiting(q);
    assert ActiveKeys(p) == ActiveKeys(q);
    hide StartTask, ActiveKeys;
    StartTaskExcess(p, next, task.groupJid, task);
  }

  lemma NextChatExcess(q: Queue)
    requires Drainable(q) && q.waitingSlots != [] && q.waitingSlots[0] !in q.waitingTaskFns
    ensures Drainable(StartNextWaiting(q)) && Excess(StartNextWaiting(q)) == Excess(q)
  {
    hide IsTaskKey;
    var next := q.waitingSlots[0];
    HeadOfWaiting(q);
    assert ActiveKeys(PopChat(q)) == ActiveKeys(q);
    GetGroupExcess(PopChat(q), next);
    var p := GetGroup(PopChat(q), next);
    if p.slots[next].pendingMessages {
      StartRunExcess(p, next);
    }
  }

  /** A chat without pending messages is not touched. */
  ghost predicate SettledChatsKept(q: Queue, r: Queue) {
    forall k :: k in q.slots && !IsTaskKey(k) && !q.slots[k].pendingMessages ==>
      k in r.slots && r.slots[k] == q.slots[k] && r.pendingRuns[k] == q.pendingRuns[k]
  }

  lemma NextKeepsSettledChats(q: Queue)
    requires Drainable(q) && q.waitingSlots != []
    ensures SettledChatsKept(q, StartNextWaiting(q))
  {
    hide IsTaskKey;
  }

  lemma {:induction false} DrainWaitingExcess(q: Queue)
    requires Drainable(q)
    ensures Drainable(DrainWaiting(q)) && Excess(DrainWaiting(q)) == Excess(q)
    ensures SettledChatsKept(q, DrainWaiting(q))
    decreases |q.waitingSlots|
  {
    hide Drainable, Excess, StartNextWaiting, IsTaskKey;
    if q.waitingSlots == [] || q.activeCount >= q.cap {
    } else {
      if q.waitingSlots[0] in q.waitingTaskFns {
        NextTaskExcess(q);
      } else {
        NextChatExcess(q);
      }
      NextKeepsSettledChats(q);
      DrainWaitingExcess(StartNextWaiting(q));
    }
  }

  // ------------------------------------------------------------------ doomed states

  const GONE := ProcessView(true, false)

  /** A run is pending on a slot that is inactive, or on a chat's slot that has a second one. */
  ghost predicate Doomed(q: Queue, key: string) {
    key in q.slots && key in q.pendingRuns
    && (key !in ActiveKeys(q) || (!IsTaskKey(key) && q.pendingRuns[key] >= 2))
  }

  /** The late settlement gives back a unit that is no longer held. */
  lemma LateRunExcess(q: Queue, jid: string)
    requires Drainable(q) && jid in q.slots && jid !in ActiveKeys(q)
    ensures Excess(SettleRun(q, jid, Failed, GONE)) == Excess(q) - 1
  {
    hide IsTaskKey, DrainWaiting;
    var q1 := SetSlot(q, jid, AfterOutcome(q.slots[jid], Failed)).(pendingRuns := q.pendingRuns - multiset{jid});
    assert ActiveKeys(q1) == ActiveKeys(q);
    ReleaseExcess(q1, jid, ByRunFinally);
    var p := ReleaseSlot(q1, jid, ByRunFinally);
    if p.slots[jid].pendingMessages {
      StartRunExcess(p, jid);
    } else {
      DrainWaitingExcess(p);
    }
  }

  lemma LateTaskExcess(q: Queue, key: string)
    requires Drainable(q) && key in q.slots && key !in ActiveKeys(q)
    ensures Excess(SettleTask(q, key)) == Excess(q) - 1
  {
    hide IsTaskKey, DrainWaiting;
    assert ActiveKeys(DropTask(q, key)) == ActiveKeys(q);
    DrainWaitingExcess(DropTask(q, key));
  }

  lemma KilledExcess(q: Queue, jid: string)
    requires Drainable(q) && jid in ActiveKeys(q)
    ensures var q' := KillActive(q, jid).0;
            && Drainable(q') && Excess(q') == Excess(q)
            && jid in ActiveKeys(q') && !q'.slots[jid].pendingMessages && q'.pendingRuns == q.pendingRuns
  {
    hide IsTaskKey;
    assert ActiveKeys(KillActive(q, jid).0) == ActiveKeys(q);
  }

  /** The first of two settlements, with no messages pending, leaves the slot inactive and the other one pending. */
  lemma FirstOfTwoExcess(q: Queue, jid: string)
    requires Drainable(q) && !IsTaskKey(jid) && jid in ActiveKeys(q) && !q.slots[jid].pendingMessages
    ensures var q' := SettleRun(q, jid, Failed, GONE);
            && Drainable(q') && Excess(q') == Excess(q)
            && jid in q'.slots && jid !in ActiveKeys(q') && q'.pendingRuns[jid] + 1 >= q.pendingRuns[jid]
  {
    hide IsTaskKey, DrainWaiting;
    var q1 := SetSlot(q, jid, AfterOutcome(q.slots[jid], Failed)).(pendingRuns := q.pendingRuns - multiset{jid});
    assert ActiveKeys(q1) == ActiveKeys(q);
    ReleaseExcess(q1, jid, ByRunFinally);
    DrainWaitingExcess(ReleaseSlot(q1, jid, ByRunFinally));
  }

  /** Some disciplined run from here ends with a wrong count. */
  ghost predicate GoesWrong(q: Queue) {
    exists es :: LegalRun(q, es) && !Accounted(Exec(q, es))
  }

  lemma WrongNow(q: Queue)
    requires Excess(q) != 0
    ensures GoesWrong(q)
  {
    assert LegalRun(q, []) && Exec(q, []) == q;
  }

  lemma WrongLater(q: Queue, e: Event)
    requires Possible(q, e) && Disciplined(q, e) && GoesWrong(Step(q, e))
    ensures GoesWrong(q)
  {
    hide Possible, Disciplined, Step, Accounted;
    var es :| LegalRun(Step(q, e), es) && !Accounted(Exec(Step(q, e), es));
    assert ([e] + es)[1..] == es;
    assert LegalRun(q, [e] + es) && Exec(q, [e] + es) == Exec(Step(q, e), es);
  }

  lemma InactiveGoesWrong(q: Queue, key: string)
    requires Drainable(q) && key in q.slots && key in q.pendingRuns && key !in ActiveKeys(q) && Excess(q) == 0
    ensures GoesWrong(q)
  {
    hide Drainable, Excess, ActiveKeys, GoesWrong, IsTaskKey, SettleRun, SettleTask;
    if IsTaskKey(key) {
      LateTaskExcess(q, key);
      WrongNow(Step(q, TaskSettles(key)));
      WrongLater(q, TaskSettles(key));
    } else {
      var e := RunSettles(key, Failed, GONE);
      LateRunExcess(q, key);
      WrongNow(Step(q, e));
      WrongLater(q, e);
    }
  }

  lemma TwiceGoesWrong(q: Queue, jid: string)
    requires Drainable(q) && !IsTaskKey(jid) && jid in ActiveKeys(q) && q.pendingRuns[jid] >= 2 && Excess(q) == 0
    ensures GoesWrong(q)
  {
    hide Drainable, Excess, GoesWrong, IsTaskKey, KillActive, Step, Possible, Disciplined;
    KilledExcess(q, jid);
    KilledIs(q, jid);
    FirstGoesWrong(KillActive(q, jid).0, jid);
    WrongLater(q, Killed(jid));
  }

  lemma KilledIs(q: Queue, jid: string)
    requires !IsTaskKey(jid)
    ensures var e := Killed(jid);
            Possible(q, e) && Disciplined(q, e) && Step(q, e) == KillActive(q, jid).0
  {
    hide IsTaskKey, KillActive;
  }

  lemma FirstGoesWrong(q: Queue, jid: string)
    requires Drainable(q) && !IsTaskKey(jid) && jid in ActiveKeys(q) && q.pendingRuns[jid] >= 2 && Excess(q) == 0
    requires !q.slots[jid].pendingMessages
    ensures GoesWrong(q)
  {
    var e := RunSettles(jid, Failed, GONE);
    hide Drainable, Excess, GoesWrong, IsTaskKey, SettleRun;
    FirstOfTwoExcess(q, jid);
    InactiveGoesWrong(SettleRun(q, jid, Failed, GONE), jid);
    WrongLater(q, e);
  }

  lemma DoomedGoesWrong(q: Queue, key: string)
    requires Drainable(q) && Doomed(q, key)
    ensures GoesWrong(q)
  {
    hide Drainable, GoesWrong, IsTaskKey, Excess;
    if Excess(q) != 0 {
      WrongNow(q);
    } else if key !in ActiveKeys(q) {
      InactiveGoesWrong(q, key);
    } else {
      TwiceGoesWrong(q, key);
    }
  }

  // ------------------------------------------------------------------ undisciplined events

  lemma WaitingIsDrainable(q: Queue)
    requires WaitingOk(q, {})
    ensures Drainable(q)
  {}

  lemma ReleaseKeepsDrainable(q: Queue, key: string, site: Site, pending: bool)
    requires Drainable(q) && key in ActiveKeys(q)
    ensures var p := ReleaseSlot(q, key, site);
            var p' := SetSlot(p, key, p.slots[key].(pendingMessages := pending));
            && Drainable(p') && key in p'.slots && key !in ActiveKeys(p') && p'.pendingRuns == q.pendingRuns
            && p'.waitingTaskFns == q.waitingTaskFns && p'.slots.Keys == q.slots.Keys
            && p'.waitingSlots == q.waitingSlots
  {
    hide IsTaskKey;
  }

  /** The drain after the release: the slot stays inactive, or gets a second run. */
  lemma DrainGroupDooms(q: Queue, key: string, jid: string, proc: ProcessView)
    requires Drainable(q) && key in q.slots && key in q.pendingRuns && key !in ActiveKeys(q) && key !in q.waitingSlots
    requires forall k :: k in q.waitingTaskFns ==> k !in q.slots
    requires IsTaskKey(key) ==> jid != key
    ensures Drainable(DrainGroup(q, jid, proc)) && Doomed(DrainGroup(q, jid, proc), key)
  {
    hide IsTaskKey;
    GetGroupExcess(q, jid);
    var p := GetGroup(q, jid);
    if p.slots[jid].pendingMessages {
      hide DrainWaiting;
    } else {
      DrainWaitingExcess(p);
      DrainWaitingFrame(p, key);
    }
  }

  lemma {:induction false} DrainWaitingFrame(q: Queue, key: string)
    requires key in q.slots && key !in q.waitingSlots
    ensures var r := DrainWaiting(q);
            key in r.slots && r.slots[key] == q.slots[key] && r.pendingRuns[key] == q.pendingRuns[key]
    decreases |q.waitingSlots|
  {
    if q.waitingSlots == [] || q.activeCount >= q.cap {
    } else {
      assert forall k :: k in q.waitingSlots[1..] ==> k in q.waitingSlots;
      DrainWaitingFrame(StartNextWaiting(q), key);
    }
  }

  lemma ReleaseOfPendingDooms(q: Queue, key: string, site: Site, pending: bool, jid: string, proc: ProcessView)
    requires WaitingOk(q, {}) && key in ActiveKeys(q) && key in q.pendingRuns && (IsTaskKey(key) ==> jid != key)
    ensures var p := ReleaseSlot(q, key, site);
            var r := DrainGroup(SetSlot(p, key, p.slots[key].(pendingMessages := pending)), jid, proc);
            Drainable(r) && Doomed(r, key)
  {
    hide IsTaskKey, DrainGroup, Doomed;
    WaitingIsDrainable(q);
    ActiveNotWaiting(q, key);
    ReleaseKeepsDrainable(q, key, site, pending);
    var p := ReleaseSlot(q, key, site);
    DrainGroupDooms(SetSlot(p, key, p.slots[key].(pendingMessages := pending)), key, jid, proc);
  }

  lemma UndisciplinedExitGoesWrong(q: Queue, key: string, staleFiles: bool)
    requires WaitingOk(q, {}) && key in q.slots && SlotOk(key, q.slots[key])
    requires key in q.pendingRuns && ReleasesOnExit(q.slots[key])
    ensures GoesWrong(ProcessExit(q, key, staleFiles))
  {
    hide WaitingOk, DrainGroup, GoesWrong, IsTaskKey, Drainable, Doomed;
    var s := q.slots[key];
    var s' := if s.groupFolder.Some? && staleFiles then s.(pendingMessages := true) else s;
    SetSlotWaiting(q, key, s', {});
    ReleaseOfPendingDooms(SetSlot(q, key, s'), key, ByExitHandler, s'.pendingMessages, s.chatJid, GONE);
    SetSlotSame(ReleaseSlot(SetSlot(q, key, s'), key, ByExitHandler), key);
    DoomedGoesWrong(ProcessExit(q, key, staleFiles), key);
  }

  lemma UndisciplinedSendDooms(q: Queue, jid: string, text: string, cursor: string, proc: ProcessView, written: bool)
    requires WaitingOk(q, {}) && jid in q.slots && jid in q.pendingRuns && FindsDead(q.slots[jid], proc)
    requires !IsTaskKey(jid)
    ensures var (r, sent) := SendMessage(q, jid, text, cursor, proc, written);
            Drainable(r) && Doomed(r, jid) && !sent
  {
    hide DrainGroup, Doomed, Drainable, IsTaskKey, WaitingOk;
    ReleaseOfPendingDooms(q, jid, BySendToDead, true, jid, proc);
  }

  lemma CursorsKeepDoom(q: Queue, jid: string, cursor: Option<string>, text: Option<string>)
    requires Drainable(q) && Doomed(q, jid)
    ensures var r := SetSlot(q, jid, q.slots[jid].(currentTurnStartCursor := cursor, currentTurnText := text));
            Drainable(r) && Doomed(r, jid)
  {
    hide IsTaskKey;
    var r := SetSlot(q, jid, q.slots[jid].(currentTurnStartCursor := cursor, currentTurnText := text));
    assert ActiveKeys(r) == ActiveKeys(q);
  }

  lemma UndisciplinedRetryGoesWrong(q: Queue, jid: string, proc: ProcessView, written: bool)
    requires WaitingOk(q, {}) && jid in q.slots && jid in q.pendingRuns && FindsDead(q.slots[jid], proc)
    requires !IsTaskKey(jid) && HasRetryTurn(q.slots[jid])
    ensures GoesWrong(RequestDeliveryRetry(q, jid, proc, written).0)
  {
    hide IsTaskKey, GoesWrong, SendMessage, WaitingOk, Drainable;
    var s := q.slots[jid];
    var (cursor, text) := (s.currentTurnStartCursor, s.currentTurnText);
    var p := SetSlot(q, jid, TurnTaken(s));
    SetSlotWaiting(q, jid, TurnTaken(s), {});
    UndisciplinedSendDooms(p, jid, text.value, cursor.value, proc, written);
    CursorsKeepDoom(SendMessage(p, jid, text.value, cursor.value, proc, written).0, jid, cursor, text);
    DoomedGoesWrong(RequestDeliveryRetry(q, jid, proc, written).0, jid);
  }

  /** The count of active slots is right, and within the cap, now and after every disciplined run. */
  ghost predicate StaysAccounted(q: Queue) {
    forall es :: LegalRun(q, es) ==> Accounted(Exec(q, es))
  }

  /** The discipline, exactly: from a good state, a possible event is disciplined if and only if the count of active
      slots is right after it and stays right in every disciplined run that follows. */
  lemma DisciplineIsExact(q: Queue, e: Event)
    requires Inv(q) && Possible(q, e)
    ensures Disciplined(q, e) <==> StaysAccounted(Step(q, e))
  {
    hide *;
    if Disciplined(q, e) {
      StepInv(q, e);
      GoodStaysAccounted(Step(q, e));
    } else {
      UndisciplinedGoesWrong(q, e);
      WrongDoesNotStay(Step(q, e));
    }
  }

  lemma GoodStaysAccounted(q: Queue)
    requires Inv(q)
    ensures StaysAccounted(q)
  {
    hide Inv, Accounted;
    forall es | LegalRun(q, es) ensures Accounted(Exec(q, es)) {
      RunInv(q, es);
      GoodIsAccounted(Exec(q, es));
    }
  }

  lemma GoodIsAccounted(q: Queue)
    requires Inv(q)
    ensures Accounted(q)
  {}

  lemma WrongDoesNotStay(q: Queue)
    requires GoesWrong(q)
    ensures !StaysAccounted(q)
  {
    hide Accounted;
  }

  lemma UndisciplinedGoesWrong(q: Queue, e: Event)
    requires Inv(q) && Possible(q, e) && !Disciplined(q, e)
    ensures GoesWrong(Step(q, e))
  {
    hide GoesWrong, WaitingOk, LedgerOk, RollbackOk, SitesOk, TasksOk, Busy, IsTaskKey, ProcessExit, SendMessage,
      RequestDeliveryRetry;
    match e {
      case Exited(key, staleFiles) =>
        assert SlotOk(key, q.slots[key]);
        UndisciplinedExitGoesWrong(q, key, staleFiles);
      case Sent(jid, text, cursor, proc, written) =>
        UndisciplinedSendDooms(q, jid, text, cursor, proc, written);
        DoomedGoesWrong(Step(q, e), jid);
      case RetryRequested(jid, proc, written) =>
        UndisciplinedRetryGoesWrong(q, jid, proc, written);
      case _ =>
    }
  }

  /** One detached task, started on an empty queue, marked idle, its process gone. */
  function ReleasedTooEarly(): Queue {
    var q := NotifyTaskIdle(EnqueueTask(NewQueue(1), "c", "t", 0), "c", "t");
    var key := TaskSlotKey("c", "t");
    if key in q.slots then ProcessExit(q, key, false) else q
  }

  lemma ReleasedTooEarlyState()
    ensures var q := ReleasedTooEarly();
            var key := TaskSlotKey("c", "t");
            && key in q.slots && key in q.pendingRuns && q.slots.Keys == {key, "c"} && ActiveKeys(q) == {}
            && !q.slots["c"].pendingMessages && q.waitingSlots == [] && q.activeCount == 0 && q.cap == 1
  {
    var key := TaskSlotKey("c", "t");
    assert |key| == 10 && |"c"| == 1;
    var q1 := EnqueueTask(NewQueue(1), "c", "t", 0);
    assert q1.slots.Keys == {key} && q1.slots[key].active && !q1.slots[key].pendingMessages;
    var q2 := NotifyTaskIdle(q1, "c", "t");
    assert q2.slots.Keys == {key} && q2.slots[key].chatJid == "c" && q2.slots[key].groupFolder == None;
    assert q2.activeCount == 1 && q2.waitingSlots == [] && key in q2.pendingRuns;
    hide IsTaskKey, TaskSlotKey, EnqueueTask, NotifyTaskIdle;
    var q3 := ProcessExit(q2, key, false);
    assert q3.slots.Keys == {key, "c"};
  }

  lemma TwoChatsStart(q: Queue)
    requires q.slots.Keys == {"c"} && ActiveKeys(q) == {} && q.activeCount == -1 && q.cap == 1
    ensures var q' := EnqueueMessageCheck(EnqueueMessageCheck(q, "a"), "b");
            ActiveKeys(q') == {"a", "b"} && q'.cap == 1
  {}

  /** Without the discipline the bound fails: with one container allowed, such a task, when it finishes, is
      released a second time, and two chats run at once afterwards. */
  lemma DisciplineIsNeeded()
    ensures var key := TaskSlotKey("c", "t");
            var q := ReleasedTooEarly();
            && key in q.slots && key in q.pendingRuns
            && var q' := SettleTask(q, key);
            && q'.activeCount == -1
            && var q'' := EnqueueMessageCheck(EnqueueMessageCheck(q', "a"), "b");
            ActiveKeys(q'') == {"a", "b"} && q''.cap == 1
  {
    var key := TaskSlotKey("c", "t");
    ReleasedTooEarlyState();
    var q := ReleasedTooEarly();
    hide ReleasedTooEarly, EnqueueMessageCheck;
    assert |key| == 10;
    var q' := SettleTask(q, key);
    assert q'.slots.Keys == {"c"};
    assert ActiveKeys(q') == {};
    TwoChatsStart(q');
  }
}
