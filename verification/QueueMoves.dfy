/** What each primitive move of the scheduler does to the invariants. */
module QueueMoves {
  import opened Options
  import opened QueueModel
  import opened QueueInvariants

  // ------------------------------------------------------------------ changes to one slot

  /** The fields of a slot that the counts, the waiting list and the ledger depend on. */
  ghost predicate SameShape(s: Slot, s': Slot) {
    && s'.chatJid == s.chatJid && s'.taskId == s.taskId && s'.isTaskContainer == s.isTaskContainer
    && s'.active == s.active && s'.activation == s.activation && s'.runningTaskId == s.runningTaskId
  }

  ghost predicate SameStanding(s: Slot, s': Slot) {
    SameShape(s, s') && s'.inFlightCursorRollback == s.inFlightCursorRollback
  }

  /** q' differs from q only in the waiting lists and in slots that keep their standing, or are new. */
  ghost predicate SameStandings(q: Queue, q': Queue) {
    && q.slots.Keys <= q'.slots.Keys
    && (forall k :: k in q.slots ==> SameStanding(q.slots[k], q'.slots[k]))
    && (forall k :: k in q'.slots && k !in q.slots ==>
          !q'.slots[k].active && q'.slots[k].inFlightCursorRollback == None)
    && q'.releases == q.releases && q'.activations == q.activations && q'.marks == q.marks
  }

  lemma StandingsKeepActive(q: Queue, q': Queue)
    requires SameStandings(q, q')
    ensures ActiveKeys(q') == ActiveKeys(q)
  {}

  lemma StandingsKeepLedger(q: Queue, q': Queue)
    requires SameStandings(q, q') && LedgerOk(q)
    ensures LedgerOk(q')
  {
    StandingsKeepActive(q, q');
    assert ActiveIds(q') == ActiveIds(q);
    assert ReleasedIds(q') == ReleasedIds(q);
  }

  lemma StandingsKeepRollback(q: Queue, q': Queue)
    requires SameStandings(q, q') && RollbackOk(q)
    ensures RollbackOk(q')
  {}

  lemma StandingsKeep(q: Queue, q': Queue, hole: set<string>, hole': set<string>)
    requires Mid(q, hole) && SameStandings(q, q') && CountsOk(q') && WaitingOk(q', hole')
    ensures Mid(q', hole')
    ensures ActiveKeys(q') == ActiveKeys(q)
  {
    hide CountsOk, WaitingOk, LedgerOk, RollbackOk, SitesOk;
    StandingsKeepActive(q, q');
    StandingsKeepLedger(q, q');
    StandingsKeepRollback(q, q');
    assert q'.releases == q.releases;
  }

  /** The waiting part, when only slot `key` changes. */
  lemma WaitingFrame(q: Queue, q': Queue, key: string, hole: set<string>, hole': set<string>)
    requires WaitingOk(q, hole)
    requires q'.waitingSlots == q.waitingSlots && q'.waitingTaskFns == q.waitingTaskFns
    requires forall k :: k != key ==> (k in q'.slots <==> k in q.slots) && (k in q.slots ==> q'.slots[k] == q.slots[k])
    requires forall k :: k != key ==> (k in hole' <==> k in hole)
    requires key in q.waitingTaskFns ==> key !in q'.slots
    requires key in q.waitingSlots && key !in q.waitingTaskFns ==>
               key in q'.slots && WantsRun(q'.slots[key]) && key !in hole'
    requires key in q'.slots && key !in hole' && WantsRun(q'.slots[key]) ==> key in q.waitingSlots
    ensures WaitingOk(q', hole')
  {}

  lemma GetGroupCounts(q: Queue, jid: string)
    requires CountsOk(q) && !IsTaskKey(jid)
    ensures CountsOk(GetGroup(q, jid))
    ensures SlotOk(jid, GetGroup(q, jid).slots[jid])
  {
    assert ActiveKeys(GetGroup(q, jid)) == ActiveKeys(q);
  }

  lemma GetGroupWaiting(q: Queue, jid: string, hole: set<string>)
    requires WaitingOk(q, hole) && !IsTaskKey(jid)
    ensures WaitingOk(GetGroup(q, jid), hole)
  {}

  lemma GetGroupKeeps(q: Queue, jid: string, hole: set<string>)
    requires Mid(q, hole) && !IsTaskKey(jid)
    ensures Mid(GetGroup(q, jid), hole)
    ensures ActiveKeys(GetGroup(q, jid)) == ActiveKeys(q)
    ensures SlotOk(jid, GetGroup(q, jid).slots[jid])
  {
    hide CountsOk, WaitingOk, LedgerOk, RollbackOk;
    GetGroupCounts(q, jid);
    GetGroupWaiting(q, jid, hole);
    StandingsKeep(q, GetGroup(q, jid), hole, hole);
  }

  lemma SetSlotCounts(q: Queue, key: string, s: Slot)
    requires CountsOk(q) && key in q.slots
    requires SameShape(q.slots[key], s) && s.retryCount <= MAX_RETRIES
    ensures CountsOk(SetSlot(q, key, s))
  {
    assert ActiveKeys(SetSlot(q, key, s)) == ActiveKeys(q);
  }

  lemma SetSlotWaiting(q: Queue, key: string, s: Slot, hole: set<string>)
    requires WaitingOk(q, hole) && key in q.slots
    requires SameShape(q.slots[key], s)
    requires !s.active && s.taskId.None? && key !in hole ==> (s.pendingMessages <==> key in q.waitingSlots)
    ensures WaitingOk(SetSlot(q, key, s), hole)
  {}

  lemma SetSlotKeeps(q: Queue, key: string, s: Slot, hole: set<string>)
    requires Mid(q, hole) && key in q.slots
    requires SameStanding(q.slots[key], s) && s.retryCount <= MAX_RETRIES
    requires !s.active && s.taskId.None? && key !in hole ==> (s.pendingMessages <==> key in q.waitingSlots)
    ensures Mid(SetSlot(q, key, s), hole)
    ensures ActiveKeys(SetSlot(q, key, s)) == ActiveKeys(q)
  {
    hide CountsOk, WaitingOk, LedgerOk, RollbackOk;
    SetSlotCounts(q, key, s);
    SetSlotWaiting(q, key, s, hole);
    StandingsKeep(q, SetSlot(q, key, s), hole, hole);
  }

  // ------------------------------------------------------------------ the ledger

  /** When slot `key` becomes active under a fresh number. */
  lemma ActivationKeepsLedger(q: Queue, q': Queue, key: string)
    requires LedgerOk(q)
    requires key !in ActiveKeys(q) && ActiveKeys(q') == ActiveKeys(q) + {key}
    requires forall k :: k in ActiveKeys(q) ==> q'.slots[k] == q.slots[k]
    requires q'.slots[key].activation == q.activations && q'.activations == q.activations + 1
    requires q'.releases == q.releases
    ensures LedgerOk(q')
  {
    assert ReleasedIds(q') == ReleasedIds(q);
    assert q.activations !in ReleasedIds(q) + ActiveIds(q);
    assert ActiveIds(q') == ActiveIds(q) + {q.activations} by {
      forall n | n in ActiveIds(q) ensures n in ActiveIds(q') {
        var k :| k in ActiveKeys(q) && q.slots[k].activation == n;
        assert k in ActiveKeys(q') && q'.slots[k].activation == n;
      }
      assert key in ActiveKeys(q');
    }
    forall k, l | k in ActiveKeys(q') && l in ActiveKeys(q') && k != l
      ensures q'.slots[k].activation != q'.slots[l].activation
    {
      assert k in ActiveKeys(q) ==> q.slots[k].activation in ActiveIds(q);
      assert l in ActiveKeys(q) ==> q.slots[l].activation in ActiveIds(q);
    }
  }

  /** When active slot `key` is released. */
  lemma ReleaseKeepsLedger(q: Queue, q': Queue, key: string, site: Site)
    requires LedgerOk(q)
    requires key in ActiveKeys(q) && ActiveKeys(q') == ActiveKeys(q) - {key}
    requires forall k :: k in ActiveKeys(q') ==> q'.slots[k] == q.slots[k]
    requires q'.activations == q.activations
    requires q'.releases == q.releases + [Release(key, q.slots[key].activation, site)]
    ensures LedgerOk(q')
  {
    var id := q.slots[key].activation;
    assert id in ActiveIds(q);
    assert ReleasedIds(q') == ReleasedIds(q) + {id} by {
      forall n | n in ReleasedIds(q) ensures n in ReleasedIds(q') {
        var i :| 0 <= i < |q.releases| && q.releases[i].activation == n;
        assert q'.releases[i].activation == n;
      }
      assert q'.releases[|q.releases|].activation == id;
    }
    assert ActiveIds(q') == ActiveIds(q) - {id} by {
      forall n | n in ActiveIds(q) - {id} ensures n in ActiveIds(q') {
        var k :| k in ActiveKeys(q) && q.slots[k].activation == n;
        assert k in ActiveKeys(q') && q'.slots[k].activation == n;
      }
    }
    forall i | 0 <= i < |q.releases| ensures q.releases[i].activation != id {
      assert q.releases[i].activation in ReleasedIds(q);
    }
    forall n: nat ensures n in ReleasedIds(q') + ActiveIds(q') <==> n < q'.activations {
      assert n in ReleasedIds(q) + ActiveIds(q) <==> n < q.activations;
    }
  }

  // ------------------------------------------------------------------ the history of cursors

  lemma OneMoreMark(marks: seq<Mark>, m: Mark, key: string, anyRelease: bool)
    ensures CursorsSinceReset(marks + [m], key, anyRelease) ==
            if Resets(m, key, anyRelease) then []
            else CursorsSinceReset(marks, key, anyRelease)
                 + if m.Piped? && m.key == key && m.cursor != "" then [m.cursor] else []
  {}

  /** A mark on one slot, with that slot's cursor fields changed to suit, keeps RollbackOk. */
  lemma MarkKeepsRollback(q: Queue, m: Mark, q': Queue)
    requires RollbackOk(q)
    requires q'.marks == q.marks + [m]
    requires forall k :: k != m.key ==>
               (k in q'.slots <==> k in q.slots) && (k in q.slots ==> q'.slots[k] == q.slots[k])
    requires m.key in q'.slots && q'.slots[m.key].taskId.Some? ==> q'.slots[m.key].inFlightCursorRollback == None
    requires First(CursorsSinceReset(q'.marks, m.key, false)) == RollbackOf(q', m.key)
    requires First(CursorsSinceReset(q'.marks, m.key, true)) == ActiveRollbackOf(q', m.key)
    ensures RollbackOk(q')
  {
    forall k
      ensures First(CursorsSinceReset(q'.marks, k, false)) == RollbackOf(q', k)
      ensures First(CursorsSinceReset(q'.marks, k, true)) == ActiveRollbackOf(q', k)
    {
      if k != m.key {
        OtherSlotsMark(q, m, q', k);
      }
    }
    hide CursorsSinceReset, First;
  }

  lemma OtherSlotsMark(q: Queue, m: Mark, q': Queue, k: string)
    requires RollbackOk(q) && q'.marks == q.marks + [m] && k != m.key
    requires (k in q'.slots <==> k in q.slots) && (k in q.slots ==> q'.slots[k] == q.slots[k])
    ensures First(CursorsSinceReset(q'.marks, k, false)) == RollbackOf(q', k)
    ensures First(CursorsSinceReset(q'.marks, k, true)) == ActiveRollbackOf(q', k)
  {
    OneMoreMark(q.marks, m, k, false);
    OneMoreMark(q.marks, m, k, true);
    assert First(CursorsSinceReset(q.marks, k, false)) == RollbackOf(q, k);
    assert First(CursorsSinceReset(q.marks, k, true)) == ActiveRollbackOf(q, k);
    hide CursorsSinceReset, First, RollbackOk;
  }

  /** The common case: the mark resets the slot, whose cursor is cleared. */
  lemma ResetKeepsRollback(q: Queue, m: Mark, q': Queue)
    requires RollbackOk(q)
    requires q'.marks == q.marks + [m] && Resets(m, m.key, false)
    requires forall k :: k != m.key ==>
               (k in q'.slots <==> k in q.slots) && (k in q.slots ==> q'.slots[k] == q.slots[k])
    requires m.key in q'.slots ==> q'.slots[m.key].inFlightCursorRollback == None
    ensures RollbackOk(q')
  {
    OneMoreMark(q.marks, m, m.key, false);
    OneMoreMark(q.marks, m, m.key, true);
    MarkKeepsRollback(q, m, q');
  }

  /** A slot update that is also an event in the history of cursors. */
  lemma MarkedSetKeeps(q: Queue, key: string, s: Slot, m: Mark)
    requires Mid(q, {}) && key in q.slots
    requires SameShape(q.slots[key], s) && s.retryCount <= MAX_RETRIES
    requires s.pendingMessages == q.slots[key].pendingMessages
    requires RollbackOk(SetSlot(q, key, s).(marks := q.marks + [m]))
    ensures Mid(SetSlot(q, key, s).(marks := q.marks + [m]), {})
    ensures ActiveKeys(SetSlot(q, key, s).(marks := q.marks + [m])) == ActiveKeys(q)
  {
    hide CountsOk, WaitingOk, LedgerOk, RollbackOk, SitesOk;
    var p := SetSlot(q, key, s);
    var q' := p.(marks := q.marks + [m]);
    SetSlotCounts(q, key, s);
    PendingIsWaiting(q, key);
    SetSlotWaiting(q, key, s, {});
    SetSlotLedger(q, key, s);
    SameButHistory(p, q');
    assert ActiveKeys(p) == ActiveKeys(q);
  }

  /** Counts, waiting list and ledger do not look at the marks or the accepted tasks. */
  lemma SameButHistory(q: Queue, q': Queue)
    requires CountsOk(q) && WaitingOk(q, {}) && LedgerOk(q)
    requires q' == q.(marks := q'.marks, accepted := q'.accepted, fetched := q'.fetched)
    ensures CountsOk(q') && WaitingOk(q', {}) && LedgerOk(q')
    ensures ActiveKeys(q') == ActiveKeys(q)
  {
    SameCounts(q, q');
    WaitingFrame(q, q', "", {}, {});
    assert ActiveIds(q') == ActiveIds(q) && ReleasedIds(q') == ReleasedIds(q);
  }

  lemma SameCounts(q: Queue, p: Queue)
    requires CountsOk(q) && p.slots == q.slots && p.activeCount == q.activeCount && p.cap == q.cap
    requires p.pendingRuns == q.pendingRuns
    ensures CountsOk(p)
    ensures ActiveKeys(p) == ActiveKeys(q)
  {}

  lemma PendingIsWaiting(q: Queue, key: string)
    requires WaitingOk(q, {}) && key in q.slots
    ensures !q.slots[key].active && q.slots[key].taskId.None? ==>
              (q.slots[key].pendingMessages <==> key in q.waitingSlots)
  {}

  lemma SetSlotLedger(q: Queue, key: string, s: Slot)
    requires LedgerOk(q) && key in q.slots && SameShape(q.slots[key], s)
    ensures LedgerOk(SetSlot(q, key, s))
  {
    var q' := SetSlot(q, key, s);
    assert ActiveKeys(q') == ActiveKeys(q);
    assert ActiveIds(q') == ActiveIds(q);
    assert ReleasedIds(q') == ReleasedIds(q);
  }

  // ------------------------------------------------------------------ starting

  lemma StartRunCounts(q: Queue, jid: string)
    requires CountsOk(q) && jid in q.slots && !IsTaskKey(jid) && jid !in ActiveKeys(q) && q.activeCount < q.cap
    ensures CountsOk(StartRun(q, jid))
    ensures ActiveKeys(StartRun(q, jid)) == ActiveKeys(q) + {jid}
  {
    assert ActiveKeys(StartRun(q, jid)) == ActiveKeys(q) + {jid};
  }

  lemma StartRunWaiting(q: Queue, jid: string, hole: set<string>)
    requires WaitingOk(q, hole) && hole <= {jid} && jid in q.slots && jid !in q.waitingSlots
    ensures WaitingOk(StartRun(q, jid), {})
  {}

  lemma StartRunKeeps(q: Queue, jid: string, hole: set<string>)
    requires Mid(q, hole) && hole <= {jid} && !IsTaskKey(jid)
    requires jid !in ActiveKeys(q) && jid !in q.waitingSlots && q.activeCount < q.cap
    ensures Mid(StartRun(q, jid), {})
    ensures ActiveKeys(StartRun(q, jid)) == ActiveKeys(q) + {jid}
  {
    hide CountsOk, WaitingOk, LedgerOk, RollbackOk;
    GetGroupKeeps(q, jid, hole);
    var p := GetGroup(q, jid);
    var q' := StartRun(p, jid);
    assert q' == StartRun(q, jid);
    StartRunCounts(p, jid);
    StartRunWaiting(p, jid, hole);
    ActivationKeepsLedger(p, q', jid);
    ResetKeepsRollback(p, Started(jid), q');
  }

  lemma StartTaskCounts(q: Queue, key: string, chatJid: string, task: QueuedTask)
    requires CountsOk(q) && IsTaskKey(key) && key == TaskSlotKey(chatJid, task.id) && key !in q.slots
    requires q.activeCount < q.cap
    ensures CountsOk(StartTask(q, key, chatJid, task))
    ensures ActiveKeys(StartTask(q, key, chatJid, task)) == ActiveKeys(q) + {key}
  {
    hide IsTaskKey, ActiveKeys, SlotOk;
    StartTaskActive(q, key, chatJid, task);
    hide StartTask;
    StartTaskSlots(q, key, chatJid, task);
    StartTaskRuns(q, key, chatJid, task);
  }

  lemma StartTaskActive(q: Queue, key: string, chatJid: string, task: QueuedTask)
    requires key !in q.slots
    ensures var q' := StartTask(q, key, chatJid, task);
            && ActiveKeys(q') == ActiveKeys(q) + {key} && key !in ActiveKeys(q)
            && q'.activeCount == q.activeCount + 1 && q'.cap == q.cap
  {
    assert ActiveKeys(StartTask(q, key, chatJid, task)) == ActiveKeys(q) + {key};
  }

  lemma StartTaskSlots(q: Queue, key: string, chatJid: string, task: QueuedTask)
    requires SlotsOk(q) && IsTaskKey(key) && key == TaskSlotKey(chatJid, task.id) && key !in q.slots
    ensures SlotsOk(StartTask(q, key, chatJid, task))
  {
    hide IsTaskKey;
  }

  lemma StartTaskRuns(q: Queue, key: string, chatJid: string, task: QueuedTask)
    requires RunsOk(q) && key !in q.slots
    ensures RunsOk(StartTask(q, key, chatJid, task))
  {
    StartTaskActive(q, key, chatJid, task);
    hide ActiveKeys;
    assert key !in q.pendingRuns;
    assert forall k :: k in StartTask(q, key, chatJid, task).pendingRuns ==> k in q.pendingRuns || k == key;
  }

  lemma StartTaskWaiting(q: Queue, key: string, chatJid: string, task: QueuedTask)
    requires WaitingOk(q, {}) && key !in q.waitingSlots
    requires key !in q.slots
    ensures WaitingOk(StartTask(q, key, chatJid, task), {})
  {}

  lemma StartTaskKeeps(q: Queue, key: string, chatJid: string, task: QueuedTask)
    requires Mid(q, {}) && IsTaskKey(key) && key == TaskSlotKey(chatJid, task.id)
    requires key !in q.slots && key !in q.waitingSlots && q.activeCount < q.cap
    ensures Mid(StartTask(q, key, chatJid, task), {})
    ensures ActiveKeys(StartTask(q, key, chatJid, task)) == ActiveKeys(q) + {key}
  {
    hide CountsOk, WaitingOk, LedgerOk, RollbackOk;
    var q' := StartTask(q, key, chatJid, task);
    StartTaskCounts(q, key, chatJid, task);
    StartTaskWaiting(q, key, chatJid, task);
    ActivationKeepsLedger(q, q', key);
    ResetKeepsRollback(q, Started(key), q');
  }

  // ------------------------------------------------------------------ releasing

  lemma ReleaseRollback(q: Queue, jid: string, site: Site)
    requires RollbackOk(q) && jid in q.slots && site != ByTaskFinally
    ensures RollbackOk(ReleaseSlot(q, jid, site))
  {
    var m := Released(jid, site);
    OneMoreMark(q.marks, m, jid, false);
    OneMoreMark(q.marks, m, jid, true);
    MarkKeepsRollback(q, m, ReleaseSlot(q, jid, site));
  }

  lemma ReleaseCounts(q: Queue, jid: string, site: Site)
    requires CountsOk(q) && !IsTaskKey(jid) && jid in ActiveKeys(q) && jid !in q.pendingRuns
    ensures CountsOk(ReleaseSlot(q, jid, site))
    ensures ActiveKeys(ReleaseSlot(q, jid, site)) == ActiveKeys(q) - {jid}
  {
    assert ActiveKeys(ReleaseSlot(q, jid, site)) == ActiveKeys(q) - {jid};
  }

  lemma ReleaseWaiting(q: Queue, jid: string, site: Site)
    requires WaitingOk(q, {}) && jid in ActiveKeys(q)
    ensures WaitingOk(ReleaseSlot(q, jid, site), {jid})
    ensures jid !in q.waitingSlots
  {}

  lemma ReleaseKeeps(q: Queue, jid: string, site: Site)
    requires Mid(q, {}) && !IsTaskKey(jid) && site != ByTaskFinally
    requires jid in ActiveKeys(q) && jid !in q.pendingRuns
    ensures Mid(ReleaseSlot(q, jid, site), {jid})
    ensures ActiveKeys(ReleaseSlot(q, jid, site)) == ActiveKeys(q) - {jid}
  {
    hide CountsOk, WaitingOk, LedgerOk, RollbackOk;
    ReleaseCounts(q, jid, site);
    ReleaseWaiting(q, jid, site);
    ReleaseKeepsLedger(q, ReleaseSlot(q, jid, site), jid, site);
    ReleaseRollback(q, jid, site);
  }

  lemma DropTaskCounts(q: Queue, key: string)
    requires CountsOk(q) && IsTaskKey(key) && key in q.slots
    ensures CountsOk(DropTask(q, key))
    ensures key in ActiveKeys(q) && q.slots[key].taskId.Some?
    ensures ActiveKeys(DropTask(q, key)) == ActiveKeys(q) - {key}
  {
    hide SlotOk;
    TaskIsActive(q, key);
    DropTaskActive(q, key);
    hide ActiveKeys;
  }

  lemma TaskIsActive(q: Queue, key: string)
    requires CountsOk(q) && IsTaskKey(key) && key in q.slots
    ensures key in ActiveKeys(q) && q.slots[key].taskId.Some? && q.pendingRuns[key] == 1
  {
    assert SlotOk(key, q.slots[key]);
    hide IsTaskKey;
  }

  lemma DropTaskActive(q: Queue, key: string)
    requires key in ActiveKeys(q)
    ensures ActiveKeys(DropTask(q, key)) == ActiveKeys(q) - {key}
    ensures |ActiveKeys(DropTask(q, key))| == |ActiveKeys(q)| - 1
  {
    assert ActiveKeys(DropTask(q, key)) == ActiveKeys(q) - {key};
  }

  lemma DropTaskWaiting(q: Queue, key: string)
    requires WaitingOk(q, {}) && key in ActiveKeys(q)
    ensures WaitingOk(DropTask(q, key), {})
  {}

  lemma DropTaskKeeps(q: Queue, key: string)
    requires Mid(q, {}) && IsTaskKey(key) && key in q.slots
    ensures Mid(DropTask(q, key), {})
    ensures key in ActiveKeys(q)
    ensures ActiveKeys(DropTask(q, key)) == ActiveKeys(q) - {key}
  {
    hide CountsOk, WaitingOk, LedgerOk, RollbackOk;
    DropTaskCounts(q, key);
    DropTaskWaiting(q, key);
    ReleaseKeepsLedger(q, DropTask(q, key), key, ByTaskFinally);
    TaskHasNoRollback(q, key);
    DropTaskRollback(q, key);
  }

  lemma TaskHasNoRollback(q: Queue, key: string)
    requires RollbackOk(q) && key in q.slots && q.slots[key].taskId.Some?
    ensures q.slots[key].inFlightCursorRollback.None?
  {}

  lemma DropTaskRollback(q: Queue, key: string)
    requires RollbackOk(q) && key in q.slots && q.slots[key].inFlightCursorRollback.None?
    ensures RollbackOk(DropTask(q, key))
  {
    var m := Released(key, ByTaskFinally);
    OneMoreMark(q.marks, m, key, false);
    OneMoreMark(q.marks, m, key, true);
    MarkKeepsRollback(q, m, DropTask(q, key));
  }

  // ------------------------------------------------------------------ the task list

  lemma {:induction false} TasksOfOthers(keys: seq<string>, fns: map<string, QueuedTask>, fns': map<string, QueuedTask>)
    requires forall k :: k in keys ==> (k in fns <==> k in fns') && (k in fns ==> fns[k] == fns'[k])
    ensures TasksOf(keys, fns) == TasksOf(keys, fns')
  {
    if keys == [] {
    } else {
      TasksOfOthers(keys[1..], fns, fns');
    }
  }

  lemma {:induction false} TasksOfAppend(keys: seq<string>, key: string, fns: map<string, QueuedTask>)
    ensures TasksOf(keys + [key], fns) == TasksOf(keys, fns) + if key in fns then [fns[key]] else []
  {
    if keys == [] {
      assert [key][1..] == [];
    } else {
      var head := if keys[0] in fns then [fns[keys[0]]] else [];
      var last := if key in fns then [fns[key]] else [];
      assert (keys + [key])[1..] == keys[1..] + [key];
      TasksOfAppend(keys[1..], key, fns);
      assert head + (TasksOf(keys[1..], fns) + last) == (head + TasksOf(keys[1..], fns)) + last;
    }
  }
}
