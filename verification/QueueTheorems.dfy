/** What holds in every state the scheduler can reach, and exactly when. */
module QueueTheorems {
  import opened Options
  import opened QueueModel
  import opened QueueInvariants
  import opened QueueMoves
  import opened QueueDraining
  import opened QueueRuns

  /** The state after a run that starts from an empty queue. */
  function After(cap: nat, events: seq<Event>): Queue
    requires LegalRun(NewQueue(cap), events)
  {
    Exec(NewQueue(cap), events)
  }

  lemma ReachableInv(cap: nat, events: seq<Event>)
    requires LegalRun(NewQueue(cap), events)
    ensures Inv(After(cap, events))
    ensures After(cap, events).cap == cap
  {
    hide Inv;
    NewQueueInv(cap);
    RunInv(NewQueue(cap), events);
    RunKeepsCap(NewQueue(cap), events);
  }

  lemma {:induction false} DrainWaitingKeepsCap(q: Queue)
    ensures DrainWaiting(q).cap == q.cap
    decreases |q.waitingSlots|
  {
    if q.waitingSlots == [] || q.activeCount >= q.cap {
    } else {
      DrainWaitingKeepsCap(StartNextWaiting(q));
    }
  }

  lemma DrainGroupKeepsCap(q: Queue, jid: string, proc: ProcessView)
    ensures DrainGroup(q, jid, proc).cap == q.cap
  {
    DrainWaitingKeepsCap(GetGroup(q, jid));
  }

  lemma SendMessageKeepsCap(q: Queue, jid: string, text: string, cursor: string, proc: ProcessView, written: bool)
    ensures SendMessage(q, jid, text, cursor, proc, written).0.cap == q.cap
  {}

  lemma StepKeepsCap(q: Queue, e: Event)
    requires Possible(q, e)
    ensures Step(q, e).cap == q.cap
  {
    hide DrainGroup, DrainWaiting, SendMessage;
    match e {
      case RunSettles(jid, outcome, proc) =>
        var q1 := SetSlot(q, jid, AfterOutcome(q.slots[jid], outcome)).(pendingRuns := q.pendingRuns - multiset{jid});
        DrainGroupKeepsCap(q1, jid, proc);
        DrainGroupKeepsCap(ReleaseSlot(q1, jid, ByRunFinally), jid, proc);
      case TaskSettles(key) =>
        DrainWaitingKeepsCap(DropTask(q, key));
      case Exited(key, staleFiles) =>
        var s := q.slots[key];
        var s' := if s.groupFolder.Some? && staleFiles then s.(pendingMessages := true) else s;
        DrainGroupKeepsCap(ReleaseSlot(SetSlot(q, key, s'), key, ByExitHandler), s.chatJid, ProcessView(true, false));
      case Sent(jid, text, cursor, proc, written) =>
        SendMessageKeepsCap(q, jid, text, cursor, proc, written);
      case RetryRequested(jid, proc, written) =>
        var p := GetGroup(q, jid);
        var s := p.slots[jid];
        if HasRetryTurn(s) {
          SendMessageKeepsCap(
            SetSlot(p, jid, TurnTaken(s)),
            jid, s.currentTurnText.value, s.currentTurnStartCursor.value, proc, written);
        }
      case _ =>
    }
  }

  lemma {:induction false} RunKeepsCap(q: Queue, events: seq<Event>)
    requires LegalRun(q, events)
    ensures Exec(q, events).cap == q.cap
    decreases |events|
  {
    if events == [] {
    } else {
      hide Step;
      StepKeepsCap(q, events[0]);
      RunKeepsCap(Step(q, events[0]), events[1..]);
    }
  }

  // ------------------------------------------------------------------ accounting

  /** activeCount is the number of active slots, never negative, never above MAX_CONCURRENT_CONTAINERS. */
  lemma ConcurrencyIsBounded(cap: nat, events: seq<Event>)
    requires LegalRun(NewQueue(cap), events)
    ensures 0 <= After(cap, events).activeCount == |ActiveKeys(After(cap, events))| <= cap
  {
    ReachableInv(cap, events);
  }

  ghost predicate WasReleased(q: Queue, n: nat) {
    exists i :: 0 <= i < |q.releases| && q.releases[i].activation == n
  }

  ghost predicate InForce(q: Queue, n: nat) {
    exists k :: k in q.slots && q.slots[k].active && q.slots[k].activation == n
  }

  /** Every activation is released exactly once or is in force on exactly one slot, never both. */
  lemma ReleasedExactlyOnce(cap: nat, events: seq<Event>)
    requires LegalRun(NewQueue(cap), events)
    ensures var q := After(cap, events);
            forall n: nat :: (WasReleased(q, n) || InForce(q, n) <==> n < q.activations)
                             && !(WasReleased(q, n) && InForce(q, n))
    ensures var q := After(cap, events);
            forall i, j :: 0 <= i < j < |q.releases| ==> q.releases[i].activation != q.releases[j].activation
    ensures var q := After(cap, events);
            forall k, l :: k in q.slots && l in q.slots && q.slots[k].active && q.slots[l].active && k != l ==>
              q.slots[k].activation != q.slots[l].activation
    ensures var q := After(cap, events);
            forall i :: 0 <= i < |q.releases| ==>
              (q.releases[i].site == ByTaskFinally <==> IsTaskKey(q.releases[i].key))
  {
    ReachableInv(cap, events);
    var q := After(cap, events);
    assert LedgerOk(q) && SitesOk(q.releases);
    hide CountsOk, WaitingOk, RollbackOk, TasksOk, IsTaskKey;
    forall n: nat
      ensures WasReleased(q, n) || InForce(q, n) <==> n < q.activations
      ensures !(WasReleased(q, n) && InForce(q, n))
    {
      assert n in ReleasedIds(q) + ActiveIds(q) <==> n < q.activations;
      assert InForce(q, n) <==> n in ActiveIds(q) by {
        if k :| k in q.slots && q.slots[k].active && q.slots[k].activation == n {
          assert k in ActiveKeys(q);
        }
      }
    }
  }

  /** Between steps no capacity is wasted and no wakeup lost. */
  lemma NoLostWakeup(cap: nat, events: seq<Event>)
    requires LegalRun(NewQueue(cap), events)
    ensures var q := After(cap, events);
            q.waitingSlots != [] ==> q.activeCount == cap
    ensures var q := After(cap, events);
            forall k :: k in q.slots && !IsTaskKey(k) && !q.slots[k].active ==>
              (q.slots[k].pendingMessages <==> k in q.waitingSlots)
    ensures var q := After(cap, events);
            forall k :: k in q.waitingSlots && !IsTaskKey(k) ==>
              k in q.slots && !q.slots[k].active && q.slots[k].pendingMessages
    ensures NoDup(After(cap, events).waitingSlots)
  {
    ReachableInv(cap, events);
    var q := After(cap, events);
    hide LedgerOk, RollbackOk, TasksOk, IsTaskKey;
    assert forall k :: k in q.slots ==> SlotOk(k, q.slots[k]);
  }

  /** Tasks are conserved, and a slot key is never both waiting and in use. */
  lemma TasksStartOnce(cap: nat, events: seq<Event>)
    requires LegalRun(NewQueue(cap), events)
    ensures var q := After(cap, events);
            forall t: QueuedTask ::
              multiset(q.accepted)[t] == multiset(q.started)[t] + multiset(TasksOf(q.waitingSlots, q.waitingTaskFns))[t]
    ensures var q := After(cap, events);
            forall k :: IsTaskKey(k) ==>
              && (k in q.waitingSlots <==> k in q.waitingTaskFns)
              && (k in q.slots <==> k in q.pendingRuns)
              && !(k in q.waitingSlots && k in q.slots)
    ensures var q := After(cap, events);
            forall k :: k in q.waitingTaskFns ==>
              IsTaskKey(k) && k == TaskSlotKey(q.waitingTaskFns[k].groupJid, q.waitingTaskFns[k].id)
    ensures var q := After(cap, events);
            forall k :: k in q.slots && IsTaskKey(k) ==>
              && q.slots[k].active && q.slots[k].isTaskContainer && q.slots[k].taskId.Some?
              && q.slots[k].runningTaskId == q.slots[k].taskId
              && k == TaskSlotKey(q.slots[k].chatJid, q.slots[k].taskId.value)
  {
    ReachableInv(cap, events);
    var q := After(cap, events);
    hide LedgerOk, RollbackOk, IsTaskKey;
    assert forall k :: k in q.slots ==> SlotOk(k, q.slots[k]);
  }

  /** enqueueTask drops a task exactly when one with its key is waiting or running. */
  lemma DuplicateDroppedExactly(cap: nat, events: seq<Event>, jid: string, taskId: string, fn: nat)
    requires LegalRun(NewQueue(cap), events)
    ensures var q := After(cap, events);
            var key := TaskSlotKey(jid, taskId);
            (EnqueueTask(q, jid, taskId, fn).accepted == q.accepted <==> key in q.waitingSlots || key in q.pendingRuns)
  {
    TasksStartOnce(cap, events);
    ReachableInv(cap, events);
    var q := After(cap, events);
    TaskSlotKeyIsTaskKey(jid, taskId);
    TaskSlotIsActive(q, TaskSlotKey(jid, taskId));
    assert |q.accepted + [QueuedTask(taskId, jid, fn)]| == |q.accepted| + 1;
  }

  // ------------------------------------------------------------------ turn numbers only grow

  lemma {:induction false} DrainWaitingTurnSeq(q: Queue, jid: string)
    requires jid in q.slots
    ensures jid in DrainWaiting(q).slots && DrainWaiting(q).slots[jid].userTurnSeq >= q.slots[jid].userTurnSeq
    decreases |q.waitingSlots|
  {
    if q.waitingSlots == [] || q.activeCount >= q.cap {
    } else {
      NextWaitingTurnSeq(q, jid);
      hide StartNextWaiting;
      DrainWaitingTurnSeq(StartNextWaiting(q), jid);
    }
  }

  lemma NextWaitingTurnSeq(q: Queue, jid: string)
    requires jid in q.slots && q.waitingSlots != []
    ensures var r := StartNextWaiting(q);
            jid in r.slots && r.slots[jid].userTurnSeq >= q.slots[jid].userTurnSeq
  {}

  lemma DrainGroupTurnSeq(q: Queue, chat: string, proc: ProcessView, jid: string)
    requires jid in q.slots
    ensures var r := DrainGroup(q, chat, proc);
            jid in r.slots && r.slots[jid].userTurnSeq >= q.slots[jid].userTurnSeq
  {
    DrainWaitingTurnSeq(GetGroup(q, chat), jid);
  }

  lemma SendMessageTurnSeq(q: Queue, chat: string, text: string, cursor: string, proc: ProcessView, written: bool,
                           jid: string)
    requires jid in q.slots
    ensures var r := SendMessage(q, chat, text, cursor, proc, written).0;
            jid in r.slots && r.slots[jid].userTurnSeq >= q.slots[jid].userTurnSeq
  {}

  /** The chat keeps its slot, and its turn number has not gone down. */
  ghost predicate TurnKept(q: Queue, q': Queue, jid: string) {
    jid in q.slots ==> jid in q'.slots && q'.slots[jid].userTurnSeq >= q.slots[jid].userTurnSeq
  }

  lemma EnqueueTurnSeq(q: Queue, e: Event, jid: string)
    requires Possible(q, e) && (e.MessageCheck? || e.TaskDue?)
    ensures TurnKept(q, Step(q, e), jid)
  {
    hide IsTaskKey;
  }

  lemma LookTurnSeq(q: Queue, e: Event, jid: string)
    requires Possible(q, e) && (e.Registered? || e.Looked? || e.TaskIdle?)
    ensures TurnKept(q, Step(q, e), jid)
  {
    hide IsTaskKey;
  }

  lemma FlagTurnSeq(q: Queue, e: Event, jid: string)
    requires Possible(q, e)
    requires e.Idle? || e.Recycled? || e.Killed? || e.CursorSet? || e.UserDelivery? || e.AgentOutput?
    ensures TurnKept(q, Step(q, e), jid)
  {
    hide IsTaskKey;
  }

  lemma SettleTurnSeq(q: Queue, e: Event, jid: string)
    requires Possible(q, e) && !IsTaskKey(jid) && (e.RunSettles? || e.TaskSettles? || e.Exited?)
    ensures TurnKept(q, Step(q, e), jid)
  {
    hide DrainGroup, DrainWaiting, IsTaskKey;
    if jid in q.slots {
      match e {
        case RunSettles(chat, outcome, proc) =>
          var s := AfterOutcome(q.slots[chat], outcome);
          var q1 := SetSlot(q, chat, s).(pendingRuns := q.pendingRuns - multiset{chat});
          DrainGroupTurnSeq(q1, chat, proc, jid);
          DrainGroupTurnSeq(ReleaseSlot(q1, chat, ByRunFinally), chat, proc, jid);
        case TaskSettles(key) =>
          DrainWaitingTurnSeq(DropTask(q, key), jid);
        case Exited(key, staleFiles) =>
          var s := q.slots[key];
          var s' := if s.groupFolder.Some? && staleFiles then s.(pendingMessages := true) else s;
          DrainGroupTurnSeq(ReleaseSlot(SetSlot(q, key, s'), key, ByExitHandler), s.chatJid,
                            ProcessView(true, false), jid);
      }
    }
  }

  lemma RetryTurnSeq(q: Queue, chat: string, proc: ProcessView, written: bool, jid: string)
    ensures TurnKept(q, RequestDeliveryRetry(q, chat, proc, written).0, jid)
  {}

  /** No step lowers a chat's turn number or forgets it. */
  lemma TurnSeqGrows(q: Queue, e: Event, jid: string)
    requires Possible(q, e) && !IsTaskKey(jid)
    ensures jid in q.slots ==>
              jid in Step(q, e).slots && Step(q, e).slots[jid].userTurnSeq >= q.slots[jid].userTurnSeq
  {
    assert TurnKept(q, Step(q, e), jid) by {
      match e {
        case Sent(chat, text, cursor, proc, written) =>
          hide SendMessage, IsTaskKey;
          if jid in q.slots {
            SendMessageTurnSeq(q, chat, text, cursor, proc, written, jid);
          }
        case RetryRequested(chat, proc, written) =>
          hide *;
          RetryTurnSeq(q, chat, proc, written, jid);
        case _ =>
          hide *;
          if e.RunSettles? || e.TaskSettles? || e.Exited? {
            SettleTurnSeq(q, e, jid);
          } else if e.MessageCheck? || e.TaskDue? {
            EnqueueTurnSeq(q, e, jid);
          } else if e.Registered? || e.Looked? || e.TaskIdle? {
            LookTurnSeq(q, e, jid);
          } else {
            FlagTurnSeq(q, e, jid);
          }
      }
    }
    hide Step;
  }

  // ------------------------------------------------------------------ delivery retries

  predicate RetrySends(s: Slot, proc: ProcessView, written: bool) {
    Sendable(s) && !(s.hasProcess && proc.exited) && written
  }

  /** A retry leaves the retained cursor and text as they were, except exactly when it sends a turn whose cursor
      is the empty string: that cursor is lost. */
  lemma RetryKeepsTurnExactly(q: Queue, jid: string, proc: ProcessView, written: bool)
    requires jid in q.slots
    ensures var s := q.slots[jid];
            var (q', cursor) := RequestDeliveryRetry(q, jid, proc, written);
            && cursor == s.currentTurnStartCursor
            && jid in q'.slots
            && q'.slots[jid].currentTurnText == s.currentTurnText
            && (q'.slots[jid].currentTurnStartCursor == s.currentTurnStartCursor
                <==> !(HasRetryTurn(s) && cursor == Some("") && RetrySends(s, proc, written)))
  {}

  /** Any number of retries, whatever becomes of each, neither loses nor grows the turn. */
  function Retries(q: Queue, jid: string, attempts: seq<(ProcessView, bool)>): Queue
    decreases |attempts|
  {
    if attempts == [] then q
    else Retries(RequestDeliveryRetry(q, jid, attempts[0].0, attempts[0].1).0, jid, attempts[1..])
  }

  lemma {:induction false} RetriesKeepTurn(q: Queue, jid: string, attempts: seq<(ProcessView, bool)>)
    requires jid in q.slots
    requires q.slots[jid].currentTurnStartCursor.Some? && q.slots[jid].currentTurnStartCursor.value != ""
    ensures var q' := Retries(q, jid, attempts);
            && jid in q'.slots
            && q'.slots[jid].currentTurnStartCursor == q.slots[jid].currentTurnStartCursor
            && q'.slots[jid].currentTurnText == q.slots[jid].currentTurnText
    decreases |attempts|
  {
    if attempts == [] {
    } else {
      hide RequestDeliveryRetry;
      RetryKeepsTurnExactly(q, jid, attempts[0].0, attempts[0].1);
      RetriesKeepTurn(RequestDeliveryRetry(q, jid, attempts[0].0, attempts[0].1).0, jid, attempts[1..]);
    }
  }

  const ALIVE := ProcessView(false, false)

  /** The chat "j" runs, with "" as its start cursor, and is piped a message. */
  function EmptyCursorTurn(): Queue {
    var q := RegisterProcess(EnqueueMessageCheck(NewQueue(1), "j"), "j", "f");
    SendMessage(SetCurrentTurnStartCursor(q, "j", ""), "j", "t", "", ALIVE, true).0
  }

  lemma EmptyCursorTurnState()
    ensures var q := EmptyCursorTurn();
            && q.slots.Keys == {"j"} && Sendable(q.slots["j"]) && q.slots["j"].hasProcess
            && q.slots["j"].currentTurnStartCursor == Some("") && q.slots["j"].currentTurnText == Some("t")
  {
    assert |"j"| == 1;
    var q1 := EnqueueMessageCheck(NewQueue(1), "j");
    assert q1.slots.Keys == {"j"} && q1.slots["j"].active && q1.slots["j"].currentTurnText == None;
    var q2 := RegisterProcess(q1, "j", "f");
    assert q2.slots.Keys == {"j"} && Sendable(q2.slots["j"]) && q2.slots["j"].currentTurnText == None;
  }

  lemma ReachesEmptyCursorTurn(rest: seq<Event>)
    requires LegalRun(EmptyCursorTurn(), rest)
    ensures var events :=
              [MessageCheck("j"), Registered("j", "f"), CursorSet("j", ""), Sent("j", "t", "", ALIVE, true)];
            LegalRun(NewQueue(1), events + rest) && After(1, events + rest) == Exec(EmptyCursorTurn(), rest)
  {
    var e0, e1, e2, e3 :=
      MessageCheck("j"), Registered("j", "f"), CursorSet("j", ""), Sent("j", "t", "", ALIVE, true);
    assert |"j"| == 1 && !IsTaskKey("j");
    hide IsTaskKey, EnqueueMessageCheck, RegisterProcess, SetCurrentTurnStartCursor, SendMessage, LegalRun, Exec;
    var q1 := EnqueueMessageCheck(NewQueue(1), "j");
    var q2 := RegisterProcess(q1, "j", "f");
    var q3 := SetCurrentTurnStartCursor(q2, "j", "");
    NextIs(q3, e3, EmptyCursorTurn(), rest);
    NextIs(q2, e2, q3, [e3] + rest);
    NextIs(q1, e1, q2, [e2] + ([e3] + rest));
    NextIs(NewQueue(1), e0, q1, [e1] + ([e2] + ([e3] + rest)));
    assert [e0, e1, e2, e3] + rest == [e0] + ([e1] + ([e2] + ([e3] + rest)));
  }

  /** A first turn of a chat that has no cursor yet, retried: the text stays and the cursor is lost, so that a second
      retry finds no turn. */
  lemma EmptyCursorIsLost(events: seq<Event>)
    requires events == [MessageCheck("j"), Registered("j", "f"), CursorSet("j", ""), Sent("j", "t", "", ALIVE, true)]
                       + [RetryRequested("j", ALIVE, true)]
    ensures LegalRun(NewQueue(1), events)
    ensures var q := After(1, events);
            && "j" in q.slots && q.slots["j"].currentTurnText == Some("t")
            && q.slots["j"].currentTurnStartCursor == None && !HasRetryTurn(q.slots["j"])
  {
    var q, e := EmptyCursorTurn(), RetryRequested("j", ALIVE, true);
    assert |"j"| == 1 && !IsTaskKey("j");
    hide IsTaskKey, EmptyCursorTurn;
    EmptyCursorTurnState();
    RetryOfEmptyCursor(q, "j", ALIVE, true);
    hide RequestDeliveryRetry;
    NextIs(q, e, RequestDeliveryRetry(q, "j", ALIVE, true).0, []);
    assert [e] + [] == [e];
    ReachesEmptyCursorTurn([e]);
  }

  lemma RetryOfEmptyCursor(q: Queue, jid: string, proc: ProcessView, written: bool)
    requires jid in q.slots && q.slots[jid].currentTurnStartCursor == Some("") && HasRetryTurn(q.slots[jid])
    requires RetrySends(q.slots[jid], proc, written)
    ensures var r := RequestDeliveryRetry(q, jid, proc, written).0;
            jid in r.slots && r.slots[jid].currentTurnStartCursor == None
            && r.slots[jid].currentTurnText == q.slots[jid].currentTurnText
  {
    hide DrainGroup;
  }
}
