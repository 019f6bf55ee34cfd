/** No message is forgotten: from the check for new messages on, the chat is marked until processMessagesFn has been
    called for it. */
module QueueMessages {
  import opened Options
  import opened QueueModel
  import opened QueueInvariants
  import opened QueueRuns
  import opened QueueCursors
  import opened QueueTheorems

  /** How often processMessagesFn has been called for the chat. */
  function Fetches(q: Queue, jid: string): nat {
    multiset(q.fetched)[jid]
  }

  predicate Pending(q: Queue, jid: string) {
    jid in q.slots && q.slots[jid].pendingMessages
  }

  /** If there were messages to fetch, there still are, or they have been fetched; and if there were none, and no
      `reason` to look for any, there are none, and nobody has. */
  predicate Remembers(q: Queue, q': Queue, jid: string, reason: bool) {
    && Fetches(q', jid) >= Fetches(q, jid)
    && (Pending(q, jid) ==> Pending(q', jid) || Fetches(q', jid) > Fetches(q, jid))
    && (!Pending(q, jid) && !reason ==> !Pending(q', jid) && Fetches(q', jid) == Fetches(q, jid))
  }

  /** There are messages to fetch, or they have been fetched. */
  predicate Noticed(q: Queue, q': Queue, jid: string) {
    Pending(q', jid) || Fetches(q', jid) > Fetches(q, jid)
  }

  lemma RemembersOn(q: Queue, p: Queue, r: Queue, jid: string, reason: bool)
    requires Remembers(q, p, jid, reason) && Remembers(p, r, jid, reason)
    ensures Remembers(q, r, jid, reason)
  {
    hide Fetches, Pending;
  }

  lemma OneMoreFetch(fetched: seq<string>, k: string, jid: string)
    ensures multiset(fetched + [k])[jid] == multiset(fetched)[jid] + (if k == jid then 1 else 0)
  {}

  lemma SameFetches(q: Queue, q': Queue, jid: string)
    requires q'.fetched == q.fetched
    ensures Fetches(q', jid) == Fetches(q, jid)
  {}

  // ------------------------------------------------------------------ the moves

  lemma GroupRemembers(q: Queue, k: string, jid: string, reason: bool)
    ensures Remembers(q, GetGroup(q, k), jid, reason)
  {}

  lemma SlotRemembers(q: Queue, k: string, s: Slot, jid: string, reason: bool)
    requires k in q.slots && (q.slots[k].pendingMessages ==> s.pendingMessages)
    requires k == jid && s.pendingMessages ==> q.slots[k].pendingMessages || reason
    ensures Remembers(q, SetSlot(q, k, s), jid, reason)
  {}

  lemma RunRemembers(q: Queue, k: string, jid: string, reason: bool)
    requires k == jid ==> Pending(q, k) || reason
    ensures Remembers(q, StartRun(q, k), jid, reason) && Fetches(StartRun(q, k), k) > Fetches(q, k)
  {
    OneMoreFetch(q.fetched, k, jid);
    OneMoreFetch(q.fetched, k, k);
  }

  /** Slots other than tasks' are as they were, and nothing has been fetched. */
  lemma SameRemembers(q: Queue, q': Queue, jid: string, reason: bool)
    requires Pending(q', jid) == Pending(q, jid) && q'.fetched == q.fetched
    ensures Remembers(q, q', jid, reason)
  {}

  lemma TaskRemembers(q: Queue, k: string, chatJid: string, task: QueuedTask, jid: string, reason: bool)
    requires k != jid
    ensures Remembers(q, StartTask(q, k, chatJid, task), jid, reason)
  {}

  lemma NextWaitingRemembers(q: Queue, jid: string, reason: bool)
    requires q.waitingSlots != [] && jid !in q.waitingTaskFns
    ensures Remembers(q, StartNextWaiting(q), jid, reason) && jid !in StartNextWaiting(q).waitingTaskFns
  {
    hide Remembers;
    var next := q.waitingSlots[0];
    var p := q.(waitingSlots := q.waitingSlots[1..]);
    if next in q.waitingTaskFns {
      var r := p.(waitingTaskFns := p.waitingTaskFns - {next});
      SameRemembers(q, r, jid, reason);
      TaskRemembers(r, next, q.waitingTaskFns[next].groupJid, q.waitingTaskFns[next], jid, reason);
      RemembersOn(q, r, StartNextWaiting(q), jid, reason);
    } else {
      SameRemembers(q, p, jid, reason);
      GroupRemembers(p, next, jid, reason);
      RemembersOn(q, p, GetGroup(p, next), jid, reason);
      hide StartRun;
      if GetGroup(p, next).slots[next].pendingMessages {
        RunRemembers(GetGroup(p, next), next, jid, reason);
        RemembersOn(q, GetGroup(p, next), StartRun(GetGroup(p, next), next), jid, reason);
      }
    }
  }

  lemma {:induction false} DrainRemembers(q: Queue, jid: string, reason: bool)
    requires jid !in q.waitingTaskFns
    ensures Remembers(q, DrainWaiting(q), jid, reason)
    decreases |q.waitingSlots|
  {
    hide Remembers, StartNextWaiting;
    if q.waitingSlots == [] || q.activeCount >= q.cap {
      SameRemembers(q, q, jid, reason);
    } else {
      var p := StartNextWaiting(q);
      NextWaitingRemembers(q, jid, reason);
      DrainRemembers(p, jid, reason);
      RemembersOn(q, p, DrainWaiting(p), jid, reason);
    }
  }

  lemma DrainGroupRemembers(q: Queue, k: string, proc: ProcessView, jid: string, reason: bool)
    requires jid !in q.waitingTaskFns
    ensures Remembers(q, DrainGroup(q, k, proc), jid, reason)
  {
    hide Remembers, StartRun, DrainWaiting;
    var p := GetGroup(q, k);
    GroupRemembers(q, k, jid, reason);
    if p.slots[k].pendingMessages {
      HandedRemembers(p, k, jid, reason);
      RunRemembers(p, k, jid, reason);
    } else {
      DrainRemembers(p, jid, reason);
    }
    RemembersOn(q, p, DrainGroup(q, k, proc), jid, reason);
  }

  lemma HandedRemembers(q: Queue, k: string, jid: string, reason: bool)
    requires k in q.slots && q.slots[k].pendingMessages
    ensures Remembers(q, SetSlot(q, k, q.slots[k].(pendingMessages := false)).(fetched := q.fetched + [k]), jid, reason)
  {
    OneMoreFetch(q.fetched, k, jid);
  }

  lemma ReleaseRemembers(q: Queue, k: string, site: Site, jid: string, reason: bool)
    requires k in q.slots
    ensures Remembers(q, ReleaseSlot(q, k, site), jid, reason)
  {}

  // ------------------------------------------------------------------ the events

  lemma SettlesRemembers(q: Queue, k: string, outcome: RunOutcome, proc: ProcessView, jid: string, reason: bool)
    requires k in q.slots && jid !in q.waitingTaskFns
    ensures Remembers(q, SettleRun(q, k, outcome, proc), jid, reason)
  {
    hide Remembers, DrainGroup;
    var s := AfterOutcome(q.slots[k], outcome);
    var p := SetSlot(q, k, s).(pendingRuns := q.pendingRuns - multiset{k});
    var r := if s.hasProcess && proc.Alive() && s.idleWaiting then p else ReleaseSlot(p, k, ByRunFinally);
    SameRemembers(q, p, jid, reason);
    ReleaseRemembers(p, k, ByRunFinally, jid, reason);
    SameRemembers(p, p, jid, reason);
    RemembersOn(q, p, r, jid, reason);
    DrainGroupRemembers(r, k, proc, jid, reason);
    RemembersOn(q, r, DrainGroup(r, k, proc), jid, reason);
  }

  lemma ExitRemembers(q: Queue, k: string, staleFiles: bool, jid: string, reason: bool)
    requires k in q.slots && jid !in q.waitingTaskFns
    requires k == jid && staleFiles && q.slots[k].groupFolder.Some? ==> reason
    ensures Remembers(q, ProcessExit(q, k, staleFiles), jid, reason)
  {
    hide Remembers, DrainGroup;
    SameRemembers(q, q, jid, reason);
    var s := q.slots[k];
    if ReleasesOnExit(s) {
      var s' := if s.groupFolder.Some? && staleFiles then s.(pendingMessages := true) else s;
      var p := SetSlot(q, k, s');
      SlotRemembers(q, k, s', jid, reason);
      ReleaseRemembers(p, k, ByExitHandler, jid, reason);
      var r := ReleaseSlot(p, k, ByExitHandler);
      RemembersOn(q, p, r, jid, reason);
      DrainGroupRemembers(r, s.chatJid, ProcessView(true, false), jid, reason);
      RemembersOn(q, r, ProcessExit(q, k, staleFiles), jid, reason);
    }
  }

  lemma CheckRemembers(q: Queue, k: string, jid: string, reason: bool)
    requires k == jid ==> reason
    ensures Remembers(q, EnqueueMessageCheck(q, k), jid, reason)
    ensures Noticed(q, EnqueueMessageCheck(q, k), k)
  {
    hide Remembers, StartRun, Fetches;
    var p := GetGroup(q, k);
    GroupRemembers(q, k, jid, reason);
    SameFetches(q, p, k);
    SlotRemembers(p, k, p.slots[k].(pendingMessages := true), jid, reason);
    var marked := SetSlot(p, k, p.slots[k].(pendingMessages := true));
    SameRemembers(marked, marked.(waitingSlots := marked.waitingSlots + [k]), jid, reason);
    RemembersOn(p, marked, marked.(waitingSlots := marked.waitingSlots + [k]), jid, reason);
    RunRemembers(p, k, jid, reason);
    RemembersOn(q, p, EnqueueMessageCheck(q, k), jid, reason);
  }

  lemma TaskDueRemembers(q: Queue, chat: string, taskId: string, fn: nat, jid: string, reason: bool)
    requires !IsTaskKey(jid)
    ensures Remembers(q, EnqueueTask(q, chat, taskId, fn), jid, reason)
  {
    TaskSlotKeyIsTaskKey(chat, taskId);
    hide TaskSlotKey, IsTaskKey;
  }

  lemma SendRemembers(q: Queue, k: string, text: string, cursor: string, proc: ProcessView, written: bool, jid: string,
                      reason: bool)
    requires jid !in q.waitingTaskFns
    requires k == jid && k in q.slots && FindsDead(q.slots[k], proc) ==> reason
    ensures Remembers(q, SendMessage(q, k, text, cursor, proc, written).0, jid, reason)
  {
    hide Remembers, DrainGroup;
    var p := GetGroup(q, k);
    GroupRemembers(q, k, jid, reason);
    if FindsDead(p.slots[k], proc) {
      var r := ReleaseSlot(p, k, BySendToDead);
      var marked := SetSlot(r, k, r.slots[k].(pendingMessages := true));
      ReleaseRemembers(p, k, BySendToDead, jid, reason);
      SlotRemembers(r, k, r.slots[k].(pendingMessages := true), jid, reason);
      RemembersOn(p, r, marked, jid, reason);
      DrainGroupRemembers(marked, k, proc, jid, reason);
      RemembersOn(p, marked, DrainGroup(marked, k, proc), jid, reason);
    } else {
      SentRemembers(p, k, text, cursor, proc, written, jid, reason);
    }
    RemembersOn(q, p, SendMessage(q, k, text, cursor, proc, written).0, jid, reason);
  }

  lemma SentRemembers(q: Queue, k: string, text: string, cursor: string, proc: ProcessView, written: bool, jid: string,
                      reason: bool)
    requires k in q.slots && !FindsDead(q.slots[k], proc)
    ensures Remembers(q, SendMessage(q, k, text, cursor, proc, written).0, jid, reason)
  {}

  lemma RetryRemembers(q: Queue, k: string, proc: ProcessView, written: bool, jid: string, reason: bool)
    requires jid !in q.waitingTaskFns
    requires k == jid && k in q.slots && FindsDead(q.slots[k], proc) ==> reason
    ensures Remembers(q, RequestDeliveryRetry(q, k, proc, written).0, jid, reason)
  {
    hide Remembers, SendMessage;
    var p := GetGroup(q, k);
    GroupRemembers(q, k, jid, reason);
    var s := p.slots[k];
    if HasRetryTurn(s) {
      var taken := SetSlot(p, k, TurnTaken(s));
      SlotRemembers(p, k, TurnTaken(s), jid, reason);
      RemembersOn(q, p, taken, jid, reason);
      var (cursor, text) := (s.currentTurnStartCursor.value, s.currentTurnText.value);
      SendRemembers(taken, k, text, cursor, proc, written, jid, reason);
      var r := SendMessage(taken, k, text, cursor, proc, written).0;
      RemembersOn(q, taken, r, jid, reason);
      var g := GetGroup(r, k);
      GroupRemembers(r, k, jid, reason);
      RemembersOn(q, r, g, jid, reason);
      var back := g.slots[k].(currentTurnStartCursor := Some(cursor), currentTurnText := Some(text));
      SlotRemembers(g, k, back, jid, reason);
      RemembersOn(q, g, SetSlot(g, k, back), jid, reason);
    }
  }

  lemma TaskSettlesRemembers(q: Queue, key: string, jid: string, reason: bool)
    requires key in q.slots && key != jid && jid !in q.waitingTaskFns
    ensures Remembers(q, SettleTask(q, key), jid, reason)
  {
    hide Remembers, DrainWaiting;
    SameRemembers(q, DropTask(q, key), jid, reason);
    DrainRemembers(DropTask(q, key), jid, reason);
    RemembersOn(q, DropTask(q, key), SettleTask(q, key), jid, reason);
  }

  /** The group's slot changes, its mark apart. */
  lemma UpdateRemembers(q: Queue, k: string, s: Slot, jid: string, reason: bool)
    requires GetGroup(q, k).slots[k].pendingMessages ==> s.pendingMessages || k != jid
    requires k == jid && s.pendingMessages ==> GetGroup(q, k).slots[k].pendingMessages || reason
    ensures Remembers(q, SetSlot(GetGroup(q, k), k, s), jid, reason)
  {}

  lemma FlagRemembers(q: Queue, e: Event, jid: string, reason: bool)
    requires Possible(q, e) && (e.Idle? || e.Recycled? || e.Looked? || (e.Killed? && e.jid != jid))
    requires e.Recycled? && e.jid == jid ==> reason
    ensures Remembers(q, Step(q, e), jid, reason)
  {
    hide IsTaskKey, Remembers;
    var s := GetGroup(q, e.jid).slots[e.jid];
    GroupRemembers(q, e.jid, jid, reason);
    UpdateRemembers(q, e.jid, s.(idleWaiting := true), jid, reason);
    if e.Recycled? || e.Killed? {
      UpdateRemembers(q, e.jid, s.(pendingMessages := e.Recycled?), jid, reason);
    }
  }

  lemma TurnRemembers(q: Queue, e: Event, jid: string, reason: bool)
    requires Possible(q, e) && (e.CursorSet? || e.UserDelivery? || e.AgentOutput?)
    ensures Remembers(q, Step(q, e), jid, reason)
  {
    hide IsTaskKey, Remembers;
    var s := GetGroup(q, e.jid).slots[e.jid];
    UpdateRemembers(q, e.jid, s.(currentTurnStartCursor := None, currentTurnText := None), jid, reason);
    if e.CursorSet? {
      UpdateRemembers(q, e.jid, s.(currentTurnStartCursor := Some(e.cursor)), jid, reason);
    }
    UpdateRemembers(q, e.jid, OutputSeen(s), jid, reason);
    var seen := SetSlot(GetGroup(q, e.jid), e.jid, OutputSeen(s));
    SameRemembers(seen, seen.(marks := q.marks + [Output(e.jid)]), jid, reason);
    RemembersOn(q, seen, seen.(marks := q.marks + [Output(e.jid)]), jid, reason);
  }

  lemma ProcessRemembers(q: Queue, e: Event, jid: string, reason: bool)
    requires e.Registered? || e.TaskIdle?
    ensures Remembers(q, Step(q, e), jid, reason)
  {
    hide IsTaskKey, TaskSlotKey;
  }

  /** The events after which there may be messages to fetch where there were none: a check for them, a recycled agent,
      files left for an agent that has exited, and a message for one that is dead. */
  predicate Reason(q: Queue, e: Event, jid: string) {
    match e
    case MessageCheck(j) => j == jid
    case Recycled(j, _) => j == jid
    case Exited(key, staleFiles) => key == jid && staleFiles && jid in q.slots && q.slots[jid].groupFolder.Some?
    case Sent(j, _, _, proc, _) => j == jid && jid in q.slots && FindsDead(q.slots[jid], proc)
    case RetryRequested(j, proc, _) => j == jid && jid in q.slots && FindsDead(q.slots[jid], proc)
    case _ => false
  }

  /** The kill of the chat itself apart, no event forgets that there are messages to fetch. */
  lemma StepRemembers(q: Queue, e: Event, jid: string, reason: bool)
    requires CursorsOk(q) && Possible(q, e) && !IsTaskKey(jid) && e != Killed(jid)
    requires Reason(q, e, jid) ==> reason
    ensures Remembers(q, Step(q, e), jid, reason)
  {
    assert jid !in q.waitingTaskFns;
    hide Remembers, CursorsOk, IsTaskKey, SettleRun, SettleTask, ProcessExit, SendMessage, RequestDeliveryRetry,
      EnqueueMessageCheck, EnqueueTask;
    match e {
      case MessageCheck(chat) => CheckRemembers(q, chat, jid, reason);
      case TaskDue(chat, taskId, fn) => TaskDueRemembers(q, chat, taskId, fn, jid, reason);
      case RunSettles(chat, outcome, proc) => SettlesRemembers(q, chat, outcome, proc, jid, reason);
      case TaskSettles(key) => TaskSettlesRemembers(q, key, jid, reason);
      case Exited(key, staleFiles) => ExitRemembers(q, key, staleFiles, jid, reason);
      case Sent(chat, text, cursor, proc, written) => SendRemembers(q, chat, text, cursor, proc, written, jid, reason);
      case RetryRequested(chat, proc, written) => RetryRemembers(q, chat, proc, written, jid, reason);
      case _ =>
        hide Step;
        if e.Registered? || e.TaskIdle? {
          ProcessRemembers(q, e, jid, reason);
        } else if e.CursorSet? || e.UserDelivery? || e.AgentOutput? {
          TurnRemembers(q, e, jid, reason);
        } else {
          FlagRemembers(q, e, jid, reason);
        }
    }
  }

  lemma {:induction false} RunRemembersAll(q: Queue, events: seq<Event>, jid: string)
    requires CursorsOk(q) && PossibleRun(q, events) && !IsTaskKey(jid) && Killed(jid) !in events
    ensures Remembers(q, Run(q, events), jid, true)
    decreases |events|
  {
    hide Remembers, CursorsOk, Step, Possible, IsTaskKey;
    if events == [] {
      SameRemembers(q, q, jid, true);
    } else {
      StepCursors(q, events[0]);
      StepRemembers(q, events[0], jid, true);
      RunRemembersAll(Step(q, events[0]), events[1..], jid);
      RemembersOn(q, Step(q, events[0]), Run(q, events), jid, true);
    }
  }

  // ------------------------------------------------------------------ the theorems

  /** In every run, disciplined or not: once a check for messages has come in, whatever happens but the chat being
      killed, processMessagesFn has been called for the chat since, or the chat is marked. */
  lemma MessageRemembered(cap: nat, before: seq<Event>, jid: string, after: seq<Event>)
    requires PossibleRun(NewQueue(cap), before) && !IsTaskKey(jid) && Killed(jid) !in after
    requires PossibleRun(Run(NewQueue(cap), before), [MessageCheck(jid)] + after)
    ensures Noticed(Run(NewQueue(cap), before), Run(Run(NewQueue(cap), before), [MessageCheck(jid)] + after), jid)
  {
    var q := Run(NewQueue(cap), before);
    var p := Step(q, MessageCheck(jid));
    assert ([MessageCheck(jid)] + after)[1..] == after;
    hide IsTaskKey, CursorsOk, EnqueueMessageCheck, Fetches, Pending;
    NewQueueCursors(cap);
    RunCursors(NewQueue(cap), before);
    StepCursors(q, MessageCheck(jid));
    CheckRemembers(q, jid, jid, true);
    RunRemembersAll(p, after, jid);
  }

  /** And in a disciplined run a chat that is marked runs, or waits for capacity. */
  lemma MarkedIsLookedAfter(cap: nat, events: seq<Event>, jid: string)
    requires LegalRun(NewQueue(cap), events) && !IsTaskKey(jid) && Pending(After(cap, events), jid)
    ensures var q := After(cap, events);
            q.slots[jid].active || (jid in q.waitingSlots && q.activeCount == cap)
  {
    hide IsTaskKey;
    NoLostWakeup(cap, events);
  }

  /** In every run: an event takes the mark from a chat without its messages being fetched if and only if it is the kill
      of an active one. */
  lemma ForgottenExactly(cap: nat, events: seq<Event>, e: Event, jid: string)
    requires PossibleRun(NewQueue(cap), events) && Possible(Run(NewQueue(cap), events), e) && !IsTaskKey(jid)
    requires Pending(Run(NewQueue(cap), events), jid)
    ensures var q := Run(NewQueue(cap), events);
            !Noticed(q, Step(q, e), jid) <==> e == Killed(jid) && q.slots[jid].active
  {
    var q := Run(NewQueue(cap), events);
    hide IsTaskKey, CursorsOk;
    NewQueueCursors(cap);
    RunCursors(NewQueue(cap), events);
    if e != Killed(jid) {
      hide Step;
      StepRemembers(q, e, jid, true);
    }
  }

  /** In every run: processMessagesFn is called for a chat, or the chat is marked, only for a reason: it was marked,
      there was a check for messages, or the event found messages that an agent will not read. */
  lemma FetchedForReason(cap: nat, events: seq<Event>, e: Event, jid: string)
    requires PossibleRun(NewQueue(cap), events) && Possible(Run(NewQueue(cap), events), e) && !IsTaskKey(jid)
    requires Noticed(Run(NewQueue(cap), events), Step(Run(NewQueue(cap), events), e), jid)
    ensures Pending(Run(NewQueue(cap), events), jid) || Reason(Run(NewQueue(cap), events), e, jid)
  {
    var q := Run(NewQueue(cap), events);
    hide IsTaskKey, CursorsOk;
    NewQueueCursors(cap);
    RunCursors(NewQueue(cap), events);
    if e == Killed(jid) {
      hide Run, PossibleRun;
    } else if !Reason(q, e, jid) {
      hide Step, Reason;
      StepRemembers(q, e, jid, false);
    }
  }
}
