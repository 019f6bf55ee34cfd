/** Who waits is served in order: nothing overtakes in the waiting list, in any run, disciplined or not. */
module QueueFairness {
  import opened Options
  import opened QueueModel
  import opened QueueRuns

  /** The key that an event puts into the waiting list: that of a chat with messages or of a new task, which neither
      runs nor waits, when all the capacity is in use. */
  function Parks(q: Queue, e: Event): seq<string> {
    match e
    case MessageCheck(jid) =>
      if q.activeCount >= q.cap && !(jid in q.slots && q.slots[jid].active) && jid !in q.waitingSlots then [jid] else []
    case TaskDue(jid, taskId, _) =>
      var key := TaskSlotKey(jid, taskId);
      if q.activeCount >= q.cap && !TaskIsKnown(q, key) && key !in q.waitingSlots then [key] else []
    case _ => []
  }

  /** The keys parked along a run, in order. */
  function Parked(q: Queue, events: seq<Event>): seq<string>
    requires PossibleRun(q, events)
    decreases |events|
  {
    if events == [] then [] else Parks(q, events[0]) + Parked(Step(q, events[0]), events[1..])
  }

  lemma {:induction false} DrainWaitingTakesFront(q: Queue) returns (left: nat)
    ensures left <= |q.waitingSlots| && DrainWaiting(q).waitingSlots == q.waitingSlots[left..]
    decreases |q.waitingSlots|
  {
    if q.waitingSlots != [] && q.activeCount < q.cap {
      left := DrainWaitingTakesFront(StartNextWaiting(q));
      left := left + 1;
    } else {
      left := 0;
    }
  }

  lemma DrainGroupTakesFront(q: Queue, jid: string, proc: ProcessView) returns (left: nat)
    ensures left <= |q.waitingSlots| && DrainGroup(q, jid, proc).waitingSlots == q.waitingSlots[left..]
  {
    left := DrainWaitingTakesFront(GetGroup(q, jid));
    if GetGroup(q, jid).slots[jid].pendingMessages {
      left := 0;
    }
  }

  lemma SendMessageTakesFront(q: Queue, jid: string, text: string, cursor: string, proc: ProcessView, written: bool)
    returns (left: nat)
    ensures left <= |q.waitingSlots|
    ensures SendMessage(q, jid, text, cursor, proc, written).0.waitingSlots == q.waitingSlots[left..]
  {
    hide DrainGroup;
    var p := GetGroup(q, jid);
    if FindsDead(p.slots[jid], proc) {
      var r := ReleaseSlot(p, jid, BySendToDead);
      left := DrainGroupTakesFront(SetSlot(r, jid, r.slots[jid].(pendingMessages := true)), jid, proc);
    } else {
      left := 0;
    }
  }

  lemma RetryTakesFront(q: Queue, jid: string, proc: ProcessView, written: bool) returns (left: nat)
    ensures left <= |q.waitingSlots|
    ensures RequestDeliveryRetry(q, jid, proc, written).0.waitingSlots == q.waitingSlots[left..]
  {
    hide SendMessage;
    var p := GetGroup(q, jid);
    var s := p.slots[jid];
    if HasRetryTurn(s) {
      left := SendMessageTakesFront(
        SetSlot(p, jid, TurnTaken(s)), jid, s.currentTurnText.value, s.currentTurnStartCursor.value, proc, written);
    } else {
      left := 0;
    }
  }

  lemma EnqueueJoinsEnd(q: Queue, e: Event)
    requires Possible(q, e) && (e.MessageCheck? || e.TaskDue?)
    ensures Step(q, e).waitingSlots == q.waitingSlots + Parks(q, e)
  {
    hide IsTaskKey;
  }

  lemma OthersLeaveQueue(q: Queue, e: Event)
    requires Possible(q, e)
    requires !e.MessageCheck? && !e.TaskDue? && !e.RunSettles? && !e.TaskSettles? && !e.Exited?
    requires !e.Sent? && !e.RetryRequested?
    ensures Step(q, e).waitingSlots == q.waitingSlots
  {
    hide IsTaskKey;
  }

  lemma SettlementTakesFront(q: Queue, e: Event) returns (left: nat)
    requires Possible(q, e) && (e.RunSettles? || e.TaskSettles? || e.Exited?)
    ensures left <= |q.waitingSlots| && Step(q, e).waitingSlots == q.waitingSlots[left..]
  {
    hide DrainGroup, DrainWaiting, IsTaskKey;
    left := 0;
    match e {
      case RunSettles(jid, outcome, proc) =>
        var q1 := SetSlot(q, jid, AfterOutcome(q.slots[jid], outcome)).(pendingRuns := q.pendingRuns - multiset{jid});
        var s := q1.slots[jid];
        left := DrainGroupTakesFront(
          if s.hasProcess && proc.Alive() && s.idleWaiting then q1 else ReleaseSlot(q1, jid, ByRunFinally), jid, proc);
      case TaskSettles(key) =>
        left := DrainWaitingTakesFront(DropTask(q, key));
      case Exited(key, staleFiles) =>
        var s := q.slots[key];
        if ReleasesOnExit(s) {
          var s' := if s.groupFolder.Some? && staleFiles then s.(pendingMessages := true) else s;
          var released := ReleaseSlot(SetSlot(q, key, s'), key, ByExitHandler);
          left := DrainGroupTakesFront(released, s.chatJid, ProcessView(true, false));
        }
    }
  }

  /** In one step, keys leave the waiting list only from its front; the one that the event parks joins at its end. */
  lemma StepIsFirstComeFirstServed(q: Queue, e: Event) returns (left: nat)
    requires Possible(q, e)
    ensures left <= |q.waitingSlots| && Step(q, e).waitingSlots == q.waitingSlots[left..] + Parks(q, e)
    ensures |Parks(q, e)| <= 1
    ensures left <= |q.waitingSlots + Parks(q, e)|
    ensures Step(q, e).waitingSlots == (q.waitingSlots + Parks(q, e))[left..]
  {
    left := 0;
    if e.MessageCheck? || e.TaskDue? {
      hide Step, TaskSlotKey, TaskIsKnown, Possible;
      EnqueueJoinsEnd(q, e);
    } else {
      assert Parks(q, e) == [];
      hide *;
      if e.RunSettles? || e.TaskSettles? || e.Exited? {
        left := SettlementTakesFront(q, e);
      } else if e.Sent? {
        left := SentTakesFront(q, e);
      } else if e.RetryRequested? {
        left := RetriedTakesFront(q, e);
      } else {
        OthersLeaveQueue(q, e);
      }
    }
  }

  lemma SentTakesFront(q: Queue, e: Event) returns (left: nat)
    requires Possible(q, e) && e.Sent?
    ensures left <= |q.waitingSlots| && Step(q, e).waitingSlots == q.waitingSlots[left..]
  {
    hide SendMessage, IsTaskKey;
    left := SendMessageTakesFront(q, e.jid, e.text, e.cursor, e.proc, e.written);
  }

  lemma RetriedTakesFront(q: Queue, e: Event) returns (left: nat)
    requires Possible(q, e) && e.RetryRequested?
    ensures left <= |q.waitingSlots| && Step(q, e).waitingSlots == q.waitingSlots[left..]
  {
    hide RequestDeliveryRetry, IsTaskKey;
    left := RetryTakesFront(q, e.jid, e.proc, e.written);
  }

  lemma QueuedTwice(w0: seq<string>, w1: seq<string>, w2: seq<string>, joined1: seq<string>, joined2: seq<string>,
                    left1: nat, left2: nat)
    requires left1 <= |w0 + joined1| && w1 == (w0 + joined1)[left1..]
    requires left2 <= |w1 + joined2| && w2 == (w1 + joined2)[left2..]
    ensures left1 + left2 <= |w0 + (joined1 + joined2)|
    ensures w2 == (w0 + (joined1 + joined2))[left1 + left2..]
  {
    assert w0 + (joined1 + joined2) == (w0 + joined1) + joined2;
    assert w1 + joined2 == (w0 + (joined1 + joined2))[left1..];
  }

  /** Over any run, disciplined or not, the waiting list is what it was and then the keys that the run's events parked,
      in the order of those events, less a number of keys from the front: no key is overtaken in it. (A chat that is
      released with messages pending runs again without joining it.) */
  lemma {:induction false} FirstComeFirstServed(q: Queue, events: seq<Event>) returns (left: nat)
    requires PossibleRun(q, events)
    ensures var all := q.waitingSlots + Parked(q, events);
            left <= |all| && Run(q, events).waitingSlots == all[left..]
    decreases |events|
  {
    hide Step, Possible, Parks;
    if events == [] {
      return 0;
    }
    var q1 := Step(q, events[0]);
    var left1 := StepIsFirstComeFirstServed(q, events[0]);
    var left2 := FirstComeFirstServed(q1, events[1..]);
    QueuedTwice(q.waitingSlots, q1.waitingSlots, Run(q, events).waitingSlots, Parks(q, events[0]),
                Parked(q1, events[1..]), left1, left2);
    left := left1 + left2;
  }
}
