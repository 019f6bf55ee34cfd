/** The rollback cursor that a released slot keeps: which event leaves one behind, and a run in which it happens. */
module QueueRollback {
  import opened Options
  import opened QueueModel
  import opened QueueInvariants
  import opened QueueMoves
  import opened QueueRuns
  import opened QueueCursors
  import opened QueueDiscipline

  /** A slot that is not active carries a rollback cursor. */
  predicate Stranded(q: Queue, jid: string) {
    jid in q.slots && !q.slots[jid].active && q.slots[jid].inFlightCursorRollback.Some?
  }

  /** A run settles on a slot with a cursor, is not kept alive idle, and no messages are pending. */
  predicate Strands(q: Queue, e: Event, jid: string) {
    && e.RunSettles? && e.jid == jid && jid in q.slots
    && var s := q.slots[jid];
    && s.inFlightCursorRollback.Some? && !(s.hasProcess && e.proc.Alive() && s.idleWaiting) && !s.pendingMessages
  }

  // ------------------------------------------------------------------ draining strands nothing

  lemma {:induction false} DrainWaitingStrandsNothing(q: Queue, jid: string)
    ensures Stranded(DrainWaiting(q), jid) ==> Stranded(q, jid)
    decreases |q.waitingSlots|
  {
    if q.waitingSlots == [] || q.activeCount >= q.cap {
    } else {
      DrainWaitingStrandsNothing(StartNextWaiting(q), jid);
    }
  }

  lemma DrainGroupStrandsNothing(q: Queue, chat: string, proc: ProcessView, jid: string)
    ensures Stranded(DrainGroup(q, chat, proc), jid) ==> Stranded(q, jid)
  {
    DrainWaitingStrandsNothing(GetGroup(q, chat), jid);
    hide DrainWaiting;
  }

  lemma SendStrandsNothing(q: Queue, chat: string, text: string, cursor: string, proc: ProcessView, written: bool,
                           jid: string)
    ensures Stranded(SendMessage(q, chat, text, cursor, proc, written).0, jid) ==> Stranded(q, jid)
  {
    hide DrainGroup;
    var p := GetGroup(q, chat);
    if FindsDead(p.slots[chat], proc) {
      var r := ReleaseSlot(p, chat, BySendToDead);
      DrainGroupStrandsNothing(SetSlot(r, chat, r.slots[chat].(pendingMessages := true)), chat, proc, jid);
    }
  }

  lemma RetryStrandsNothing(q: Queue, chat: string, proc: ProcessView, written: bool, jid: string)
    ensures Stranded(RequestDeliveryRetry(q, chat, proc, written).0, jid) ==> Stranded(q, jid)
  {
    hide SendMessage;
    var p := GetGroup(q, chat);
    var s := p.slots[chat];
    if HasRetryTurn(s) {
      SendStrandsNothing(SetSlot(p, chat, TurnTaken(s)), chat, s.currentTurnText.value, s.currentTurnStartCursor.value,
                         proc, written, jid);
    }
  }

  lemma ExitStrandsNothing(q: Queue, key: string, staleFiles: bool, jid: string)
    requires key in q.slots
    ensures Stranded(ProcessExit(q, key, staleFiles), jid) ==> Stranded(q, jid)
  {
    hide DrainGroup;
    var s := q.slots[key];
    if ReleasesOnExit(s) {
      var s' := if s.groupFolder.Some? && staleFiles then s.(pendingMessages := true) else s;
      DrainGroupStrandsNothing(ReleaseSlot(SetSlot(q, key, s'), key, ByExitHandler), s.chatJid, GONE, jid);
    }
  }

  lemma TaskStrandsNothing(q: Queue, key: string, jid: string)
    requires key in q.slots
    ensures Stranded(SettleTask(q, key), jid) ==> Stranded(q, jid)
  {
    DrainWaitingStrandsNothing(DropTask(q, key), jid);
    hide DrainWaiting;
  }

  /** Draining passes over a chat with nothing pending, should it be waiting. */
  lemma {:induction false} DrainWaitingPassesOver(q: Queue, jid: string)
    requires jid in q.slots && !q.slots[jid].pendingMessages && jid !in q.waitingTaskFns
    ensures jid in DrainWaiting(q).slots && DrainWaiting(q).slots[jid] == q.slots[jid]
    decreases |q.waitingSlots|
  {
    if q.waitingSlots == [] || q.activeCount >= q.cap {
    } else {
      DrainWaitingPassesOver(StartNextWaiting(q), jid);
    }
  }

  lemma SettlementStrandsExactly(q: Queue, e: Event, jid: string)
    requires e.RunSettles? && e.jid in q.slots && e.jid !in q.waitingTaskFns && !Stranded(q, jid)
    ensures Stranded(SettleRun(q, e.jid, e.outcome, e.proc), jid) <==> Strands(q, e, jid)
  {
    hide DrainGroup, IsTaskKey;
    var s := AfterOutcome(q.slots[e.jid], e.outcome);
    var q1 := SetSlot(q, e.jid, s).(pendingRuns := q.pendingRuns - multiset{e.jid});
    var q2 := if s.hasProcess && e.proc.Alive() && s.idleWaiting then q1 else ReleaseSlot(q1, e.jid, ByRunFinally);
    DrainGroupStrandsNothing(q2, e.jid, e.proc, jid);
    ReleasedThenDrained(q2, e.jid, e.proc);
  }

  /** The group's own slot after the drain. */
  lemma ReleasedThenDrained(q: Queue, jid: string, proc: ProcessView)
    requires jid in q.slots && jid !in q.waitingTaskFns
    ensures Stranded(DrainGroup(q, jid, proc), jid) <==> Stranded(q, jid) && !q.slots[jid].pendingMessages
  {
    if !q.slots[jid].pendingMessages {
      DrainWaitingPassesOver(q, jid);
    }
    hide DrainWaiting;
  }

  lemma EnqueueStrandsNothing(q: Queue, e: Event, jid: string)
    requires Possible(q, e) && (e.MessageCheck? || e.TaskDue?)
    ensures Stranded(Step(q, e), jid) ==> Stranded(q, jid)
  {
    hide IsTaskKey, Stranded;
    match e {
      case MessageCheck(chat) => MessageStrandsNothing(q, chat, jid);
      case TaskDue(chat, taskId, fn) => TaskDueStrandsNothing(q, chat, taskId, fn, jid);
    }
  }

  lemma MessageStrandsNothing(q: Queue, chat: string, jid: string)
    ensures Stranded(EnqueueMessageCheck(q, chat), jid) ==> Stranded(q, jid)
  {}

  lemma TaskDueStrandsNothing(q: Queue, chat: string, taskId: string, fn: nat, jid: string)
    ensures Stranded(EnqueueTask(q, chat, taskId, fn), jid) ==> Stranded(q, jid)
  {
    hide TaskSlotKey;
  }

  lemma FlagStrandsNothing(q: Queue, e: Event, jid: string)
    requires Possible(q, e) && (e.Idle? || e.TaskIdle? || e.Recycled? || e.Killed? || e.CursorSet? || e.UserDelivery?)
    ensures Stranded(Step(q, e), jid) ==> Stranded(q, jid)
  {
    hide IsTaskKey;
  }

  lemma LookStrandsNothing(q: Queue, e: Event, jid: string)
    requires Possible(q, e) && (e.Registered? || e.Looked? || e.AgentOutput?)
    ensures Stranded(Step(q, e), jid) ==> Stranded(q, jid)
  {
    hide IsTaskKey;
  }

  /** In any run, disciplined or not, an event leaves a slot with a cursor that outlives its activation if and only if
      it is the settlement of the slot's run, the slot has a cursor, the agent is not kept alive idle, and no messages
      are pending. */
  lemma StrandedExactly(cap: nat, events: seq<Event>, e: Event, jid: string)
    requires PossibleRun(NewQueue(cap), events) && Possible(Run(NewQueue(cap), events), e)
    requires !Stranded(Run(NewQueue(cap), events), jid)
    ensures var q := Run(NewQueue(cap), events);
            Stranded(Step(q, e), jid) <==> Strands(q, e, jid)
  {
    hide *;
    NewQueueCursors(cap);
    RunCursors(NewQueue(cap), events);
    StepStrandsExactly(Run(NewQueue(cap), events), e, jid);
  }

  lemma StepStrandsExactly(q: Queue, e: Event, jid: string)
    requires CursorsOk(q) && Possible(q, e) && !Stranded(q, jid)
    ensures Stranded(Step(q, e), jid) <==> Strands(q, e, jid)
  {
    hide RollbackOk, Stranded, SettleRun, SettleTask, ProcessExit,
      SendMessage, RequestDeliveryRetry, IsTaskKey;
    match e {
      case RunSettles(chat, _, _) =>
        SettlementStrandsExactly(q, e, jid);
      case TaskSettles(key) => TaskStrandsNothing(q, key, jid);
      case Exited(key, staleFiles) => ExitStrandsNothing(q, key, staleFiles, jid);
      case Sent(chat, text, cursor, proc, written) => SendStrandsNothing(q, chat, text, cursor, proc, written, jid);
      case RetryRequested(chat, proc, written) => RetryStrandsNothing(q, chat, proc, written, jid);
      case _ =>
        hide Step;
        if e.MessageCheck? || e.TaskDue? {
          EnqueueStrandsNothing(q, e, jid);
        } else if e.Registered? || e.Looked? || e.AgentOutput? {
          LookStrandsNothing(q, e, jid);
        } else {
          FlagStrandsNothing(q, e, jid);
        }
    }
  }

  // ------------------------------------------------------------------ a run in which it happens

  /** The chat "j" runs, its process registers and is piped a message. */
  function Piping(): Queue {
    var q := RegisterProcess(EnqueueMessageCheck(NewQueue(1), "j"), "j", "f");
    SendMessage(q, "j", "t", "c", ProcessView(false, false), true).0
  }

  lemma PipingState()
    ensures var q := Piping();
            && q.slots.Keys == {"j"} && q.slots["j"].active && q.slots["j"].inFlightCursorRollback == Some("c")
            && !q.slots["j"].pendingMessages && q.waitingSlots == [] && "j" in q.pendingRuns
            && q.marks == [Started("j"), Piped("j", "c", "t")]
  {
    assert |"j"| == 1;
    var q1 := EnqueueMessageCheck(NewQueue(1), "j");
    assert q1.slots.Keys == {"j"} && q1.marks == [Started("j")] && q1.slots["j"].active;
    var q2 := RegisterProcess(q1, "j", "f");
    assert q2.slots.Keys == {"j"} && q2.marks == q1.marks && Sendable(q2.slots["j"]);
  }

  lemma SettlingStrands(q: Queue)
    requires q.slots.Keys == {"j"} && q.slots["j"].active && q.slots["j"].inFlightCursorRollback == Some("c")
    requires !q.slots["j"].pendingMessages && q.waitingSlots == [] && q.marks == [Started("j"), Piped("j", "c", "t")]
    ensures var q' := SettleRun(q, "j", Succeeded, GONE);
            && Stranded(q', "j") && q'.marks == [Started("j"), Piped("j", "c", "t"), Released("j", ByRunFinally)]
  {}

  lemma EndsAt(q: Queue)
    ensures LegalRun(q, []) && Exec(q, []) == q
  {}

  /** A run that settles with a dead process after a message was piped: the slot is released and the cursor "c" stays
      with it, although nothing has been piped since the release. */
  lemma CursorOutlivesItsRun(events: seq<Event>)
    requires events == [MessageCheck("j"), Registered("j", "f"), Sent("j", "t", "c", ProcessView(false, false), true),
                        RunSettles("j", Succeeded, GONE)]
    ensures LegalRun(NewQueue(1), events)
    ensures var q := Exec(NewQueue(1), events);
            && Stranded(q, "j") && First(CursorsSinceReset(q.marks, "j", true)) == None
  {
    var e0, e1, e2, e3 := events[0], events[1], events[2], events[3];
    assert |"j"| == 1 && !IsTaskKey("j");
    PipingState();
    SettlingStrands(Piping());
    var q1 := EnqueueMessageCheck(NewQueue(1), "j");
    var q2 := RegisterProcess(q1, "j", "f");
    var q := SettleRun(Piping(), "j", Succeeded, GONE);
    hide IsTaskKey, EnqueueMessageCheck, RegisterProcess, SendMessage, SettleRun, LegalRun, Exec;
    EndsAt(q);
    NextIs(Piping(), e3, q, []);
    NextIs(q2, e2, Piping(), [e3] + []);
    NextIs(q1, e1, q2, [e2] + ([e3] + []));
    NextIs(NewQueue(1), e0, q1, [e1] + ([e2] + ([e3] + [])));
    assert events == [e0] + ([e1] + ([e2] + ([e3] + [])));
    assert SinceReset(q.marks, "j", true) == [];
  }
}
