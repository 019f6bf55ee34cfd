/** What happens to the slot of a task while the task runs. */
module QueueTasks {
  import opened Options
  import opened QueueModel
  import opened QueueInvariants
  import opened QueueRuns

  /** A task that has just started: no process, and it does not wait. */
  predicate JustStarted(s: Slot) {
    s.active && !s.idleWaiting && !s.hasProcess && s.groupFolder.None?
  }

  /** The task's slot is as it was, or the task has just started. */
  predicate TaskKept(q: Queue, q': Queue, key: string) {
    if key in q.slots then key in q'.slots && q'.slots[key] == q.slots[key]
    else key in q'.slots ==> JustStarted(q'.slots[key])
  }

  lemma TaskKeptOn(q: Queue, p: Queue, r: Queue, key: string)
    requires TaskKept(q, p, key) && TaskKept(p, r, key)
    ensures TaskKept(q, r, key)
  {}

  predicate NotBoth(q: Queue, key: string) {
    key in q.waitingTaskFns ==> key !in q.slots
  }

  lemma {:induction false} DrainKeepsTask(q: Queue, key: string)
    requires NotBoth(q, key) && IsTaskKey(key)
    requires forall k :: k in q.waitingSlots && k !in q.waitingTaskFns ==> k != key
    requires forall i, j :: 0 <= i < j < |q.waitingSlots| ==> q.waitingSlots[i] != q.waitingSlots[j]
    ensures TaskKept(q, DrainWaiting(q), key)
    decreases |q.waitingSlots|
  {
    hide IsTaskKey;
    if q.waitingSlots == [] || q.activeCount >= q.cap {
    } else {
      var p := StartNextWaiting(q);
      NextKeepsTask(q, key);
      hide StartNextWaiting;
      DrainKeepsTask(p, key);
      TaskKeptOn(q, p, DrainWaiting(p), key);
    }
  }

  lemma NextKeepsTask(q: Queue, key: string)
    requires NotBoth(q, key) && q.waitingSlots != []
    requires forall k :: k in q.waitingSlots && k !in q.waitingTaskFns ==> k != key
    requires forall i, j :: 0 <= i < j < |q.waitingSlots| ==> q.waitingSlots[i] != q.waitingSlots[j]
    ensures var p := StartNextWaiting(q);
            && TaskKept(q, p, key) && NotBoth(p, key)
            && forall k :: k in p.waitingSlots && k !in p.waitingTaskFns ==> k != key
  {
    assert forall k :: k in q.waitingSlots[1..] ==> k != q.waitingSlots[0];
  }

  lemma DrainGroupKeepsTask(q: Queue, jid: string, proc: ProcessView, key: string)
    requires NotBoth(q, key) && IsTaskKey(key) && !IsTaskKey(jid)
    requires forall k :: k in q.waitingSlots && k !in q.waitingTaskFns ==> k != key
    requires forall i, j :: 0 <= i < j < |q.waitingSlots| ==> q.waitingSlots[i] != q.waitingSlots[j]
    ensures TaskKept(q, DrainGroup(q, jid, proc), key)
  {
    var p := GetGroup(q, jid);
    if !p.slots[jid].pendingMessages {
      DrainKeepsTask(p, key);
    }
    hide DrainWaiting, IsTaskKey;
  }

  lemma WaitingKnowsTasks(q: Queue, key: string)
    requires WaitingOk(q, {}) && SlotsOk(q) && IsTaskKey(key)
    ensures NotBoth(q, key) && forall k :: k in q.waitingSlots && k !in q.waitingTaskFns ==> k != key
    ensures forall i, j :: 0 <= i < j < |q.waitingSlots| ==> q.waitingSlots[i] != q.waitingSlots[j]
  {
    assert key in q.slots ==> SlotOk(key, q.slots[key]);
    hide IsTaskKey;
  }

  lemma SettleKeepsTask(q: Queue, e: Event, key: string)
    requires WaitingOk(q, {}) && SlotsOk(q) && Possible(q, e) && IsTaskKey(key) && e.RunSettles?
    ensures TaskKept(q, Step(q, e), key)
  {
    WaitingKnowsTasks(q, key);
    var s := AfterOutcome(q.slots[e.jid], e.outcome);
    var p := SetSlot(q, e.jid, s).(pendingRuns := q.pendingRuns - multiset{e.jid});
    var r := if p.slots[e.jid].hasProcess && e.proc.Alive() && p.slots[e.jid].idleWaiting then p
             else ReleaseSlot(p, e.jid, ByRunFinally);
    hide WaitingOk, DrainGroup;
    DrainGroupKeepsTask(r, e.jid, e.proc, key);
    hide IsTaskKey;
  }

  /** Another task's end. */
  lemma TaskEndKeepsTask(q: Queue, e: Event, key: string)
    requires WaitingOk(q, {}) && SlotsOk(q) && Possible(q, e) && IsTaskKey(key) && e.TaskSettles? && e.key != key
    ensures TaskKept(q, Step(q, e), key)
  {
    WaitingKnowsTasks(q, key);
    hide WaitingOk, DrainWaiting;
    DrainKeepsTask(DropTask(q, e.key), key);
    hide IsTaskKey;
  }

  lemma ExitKeepsTask(q: Queue, e: Event, key: string)
    requires WaitingOk(q, {}) && CountsOk(q) && Possible(q, e) && Disciplined(q, e) && IsTaskKey(key) && e.Exited?
    ensures TaskKept(q, Step(q, e), key)
  {
    WaitingKnowsTasks(q, key);
    assert SlotOk(e.key, q.slots[e.key]);
    if ReleasesOnExit(q.slots[e.key]) {
      var s := q.slots[e.key];
      var s' := if s.groupFolder.Some? && e.staleFiles then s.(pendingMessages := true) else s;
      hide WaitingOk, DrainGroup;
      DrainGroupKeepsTask(ReleaseSlot(SetSlot(q, e.key, s'), e.key, ByExitHandler), s.chatJid,
                          ProcessView(true, false), key);
      hide IsTaskKey;
    }
  }

  lemma SendKeepsTask(q: Queue, jid: string, text: string, cursor: string, proc: ProcessView, written: bool,
                      key: string)
    requires NotBoth(q, key) && IsTaskKey(key) && !IsTaskKey(jid)
    requires forall k :: k in q.waitingSlots && k !in q.waitingTaskFns ==> k != key
    requires forall i, j :: 0 <= i < j < |q.waitingSlots| ==> q.waitingSlots[i] != q.waitingSlots[j]
    ensures TaskKept(q, SendMessage(q, jid, text, cursor, proc, written).0, key)
  {
    var p := GetGroup(q, jid);
    hide DrainGroup, PipeInto;
    if FindsDead(p.slots[jid], proc) {
      var r := ReleaseSlot(p, jid, BySendToDead);
      DrainGroupKeepsTask(SetSlot(r, jid, r.slots[jid].(pendingMessages := true)), jid, proc, key);
    }
    hide IsTaskKey;
  }

  /** Another slot changes, or the task's is new. */
  lemma OtherKeepsTask(q: Queue, k: string, s: Slot, key: string)
    requires k != key
    ensures TaskKept(q, GetGroup(q, k), key) && TaskKept(q, SetSlot(GetGroup(q, k), k, s), key)
  {}

  lemma RetryKeepsTask(q: Queue, jid: string, proc: ProcessView, written: bool, key: string)
    requires WaitingOk(q, {}) && SlotsOk(q) && IsTaskKey(key) && !IsTaskKey(jid)
    ensures TaskKept(q, RequestDeliveryRetry(q, jid, proc, written).0, key)
  {
    var p := GetGroup(q, jid);
    var s := p.slots[jid];
    WaitingKnowsTasks(q, key);
    OtherKeepsTask(q, jid, TurnTaken(s), key);
    hide WaitingOk, SlotsOk, SendMessage, TaskKept;
    if HasRetryTurn(s) {
      var taken := SetSlot(p, jid, TurnTaken(s));
      var (text, cursor) := (s.currentTurnText.value, s.currentTurnStartCursor.value);
      SendKeepsTask(taken, jid, text, cursor, proc, written, key);
      hide IsTaskKey;
      var r := SendMessage(taken, jid, text, cursor, proc, written).0;
      TaskKeptOn(q, taken, r, key);
      var back := GetGroup(r, jid).slots[jid].(currentTurnStartCursor := Some(cursor), currentTurnText := Some(text));
      OtherKeepsTask(r, jid, back, key);
      TaskKeptOn(q, r, GetGroup(r, jid), key);
      TaskKeptOn(q, r, SetSlot(GetGroup(r, jid), jid, back), key);
    }
  }

  lemma DueKeepsTask(q: Queue, e: Event, key: string)
    requires WaitingOk(q, {}) && CountsOk(q) && IsTaskKey(key) && e.TaskDue?
    ensures TaskKept(q, Step(q, e), key)
  {
    TaskSlotIsActive(q, key);
    hide TaskSlotKey, IsTaskKey, WaitingOk, CountsOk;
  }

  lemma CheckKeepsTask(q: Queue, jid: string, key: string)
    requires jid != key
    ensures TaskKept(q, EnqueueMessageCheck(q, jid), key)
  {}

  lemma ChatKeepsTask(q: Queue, e: Event, key: string)
    requires Possible(q, e) && IsTaskKey(key)
    requires e.Idle? || e.Recycled? || e.Killed? || e.CursorSet? || e.UserDelivery? || e.AgentOutput? || e.Looked?
    ensures TaskKept(q, Step(q, e), key)
  {
    assert e.jid != key;
    hide IsTaskKey;
    OtherKeepsTask(q, e.jid, Step(q, e).slots[e.jid], key);
    assert Step(q, e).slots == GetGroup(q, e.jid).slots[e.jid := Step(q, e).slots[e.jid]];
    hide Step;
  }

  /** What an event does to the slot of the task that it is about. */
  function OwnChange(s: Slot, e: Event, key: string): Slot {
    match e
    case TaskIdle(jid, taskId) => if TaskSlotKey(jid, taskId) == key then s.(idleWaiting := true) else s
    case Registered(k, folder) =>
      if k != key then s
      else s.(hasProcess := true, groupFolder := if folder != "" then Some(folder) else s.groupFolder)
    case _ => s
  }

  /** In every disciplined step: a task's slot changes only when the task says that it waits, when a process is
      registered on it, and when the task ends; a task that starts finds its slot new. */
  lemma TaskSlotChangesExactly(cap: nat, events: seq<Event>, e: Event, key: string)
    requires LegalRun(NewQueue(cap), events) && IsTaskKey(key)
    requires Possible(Exec(NewQueue(cap), events), e) && Disciplined(Exec(NewQueue(cap), events), e)
    ensures var q := Exec(NewQueue(cap), events);
            var q' := Step(q, e);
            if key !in q.slots then key in q'.slots ==> JustStarted(q'.slots[key])
            else if e == TaskSettles(key) then key !in q'.slots
            else key in q'.slots && q'.slots[key] == OwnChange(q.slots[key], e, key)
  {
    var q := Exec(NewQueue(cap), events);
    NewQueueInv(cap);
    RunInv(NewQueue(cap), events);
    assert CountsOk(q) && WaitingOk(q, {}) && SlotsOk(q);
    hide Exec, LegalRun, Inv;
    StepOnTask(q, e, key);
  }

  lemma StepOnTask(q: Queue, e: Event, key: string)
    requires CountsOk(q) && WaitingOk(q, {}) && Possible(q, e) && Disciplined(q, e) && IsTaskKey(key)
    ensures var q' := Step(q, e);
            if key !in q.slots then key in q'.slots ==> JustStarted(q'.slots[key])
            else if e == TaskSettles(key) then key !in q'.slots
            else key in q'.slots && q'.slots[key] == OwnChange(q.slots[key], e, key)
  {
    if e.TaskIdle? || e.Registered? {
      hide Step, CountsOk, WaitingOk;
      OwnStep(q, e, key);
    } else if e == TaskSettles(key) {
      OwnEnd(q, key);
    } else {
      assert TaskKept(q, Step(q, e), key) by {
        hide CountsOk, WaitingOk, Step;
        CountsSlots(q);
        match e {
          case RunSettles(_, _, _) => SettleKeepsTask(q, e, key);
          case TaskSettles(_) => TaskEndKeepsTask(q, e, key);
          case Exited(_, _) => ExitKeepsTask(q, e, key);
          case Sent(jid, text, cursor, proc, written) =>
            StepSends(q, e);
            WaitingKnowsTasks(q, key);
            SendKeepsTask(q, jid, text, cursor, proc, written, key);
          case RetryRequested(jid, proc, written) =>
            StepSends(q, e);
            RetryKeepsTask(q, jid, proc, written, key);
          case TaskDue(_, _, _) => DueKeepsTask(q, e, key);
          case MessageCheck(jid) =>
            ChecksMessages(q, e);
            CheckKeepsTask(q, jid, key);
          case _ => ChatKeepsTask(q, e, key);
        }
      }
      hide Step, CountsOk, WaitingOk, IsTaskKey;
    }
  }

  lemma OwnStep(q: Queue, e: Event, key: string)
    requires IsTaskKey(key) && (e.TaskIdle? || e.Registered?)
    ensures var q' := Step(q, e);
            if key !in q.slots then key !in q'.slots
            else key in q'.slots && q'.slots[key] == OwnChange(q.slots[key], e, key)
  {
    hide TaskSlotKey, IsTaskKey;
  }

  lemma CountsSlots(q: Queue)
    requires CountsOk(q)
    ensures SlotsOk(q)
  {}

  lemma StepSends(q: Queue, e: Event)
    requires Possible(q, e) && (e.Sent? || e.RetryRequested?)
    ensures Step(q, e) == if e.Sent? then SendMessage(q, e.jid, e.text, e.cursor, e.proc, e.written).0
                          else RequestDeliveryRetry(q, e.jid, e.proc, e.written).0
    ensures !IsTaskKey(e.jid)
  {
    hide SendMessage, RequestDeliveryRetry, IsTaskKey;
  }

  lemma ChecksMessages(q: Queue, e: Event)
    requires Possible(q, e) && e.MessageCheck?
    ensures Step(q, e) == EnqueueMessageCheck(q, e.jid) && !IsTaskKey(e.jid)
  {
    hide EnqueueMessageCheck, IsTaskKey;
  }

  /** The task that ends is not waiting to be started again. */
  lemma OwnEnd(q: Queue, key: string)
    requires WaitingOk(q, {}) && CountsOk(q) && IsTaskKey(key) && key in q.slots
    ensures key !in SettleTask(q, key).slots
  {
    WaitingKnowsTasks(q, key);
    assert SlotOk(key, q.slots[key]);
    assert key !in q.waitingTaskFns && key !in q.waitingSlots;
    hide WaitingOk, CountsOk, IsTaskKey;
    StaysAway(DropTask(q, key), key);
  }

  lemma {:induction false} StaysAway(q: Queue, key: string)
    requires key !in q.slots && key !in q.waitingSlots
    ensures key !in DrainWaiting(q).slots
    decreases |q.waitingSlots|
  {
    if q.waitingSlots == [] || q.activeCount >= q.cap {
    } else {
      StaysAway(StartNextWaiting(q), key);
    }
  }
}
