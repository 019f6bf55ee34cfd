/** What drainWaiting and drainGroup do to the invariants. */
module QueueDraining {
  import opened Options
  import opened QueueModel
  import opened QueueInvariants
  import opened QueueMoves

  /** The waiting list without its first entry, which is a task. */
  function PopTask(q: Queue): Queue
    requires q.waitingSlots != []
  {
    q.(waitingSlots := q.waitingSlots[1..], waitingTaskFns := q.waitingTaskFns - {q.waitingSlots[0]})
  }

  /** The waiting list without its first entry, which is a chat. */
  function PopChat(q: Queue): Queue
    requires q.waitingSlots != []
  {
    q.(waitingSlots := q.waitingSlots[1..])
  }

  lemma HeadOfWaiting(q: Queue)
    requires q.waitingSlots != [] && NoDup(q.waitingSlots)
    ensures q.waitingSlots[0] !in q.waitingSlots[1..]
    ensures forall k :: k in q.waitingSlots <==> k == q.waitingSlots[0] || k in q.waitingSlots[1..]
  {}

  lemma PopTaskWaiting(q: Queue)
    requires WaitingOk(q, {}) && q.waitingSlots != [] && q.waitingSlots[0] in q.waitingTaskFns
    ensures WaitingOk(PopTask(q), {})
    ensures var key := q.waitingSlots[0];
            && key !in q.slots && key !in q.waitingSlots[1..] && IsTaskKey(key)
            && q.waitingTaskFns[key].groupJid != key
    ensures var (key, task) := (q.waitingSlots[0], q.waitingTaskFns[q.waitingSlots[0]]);
            key == TaskSlotKey(task.groupJid, task.id)
  {
    var task := q.waitingTaskFns[q.waitingSlots[0]];
    TaskSlotKeyIsTaskKey(task.groupJid, task.id);
    assert TaskKeyOk(q.waitingSlots[0], task);
  }

  lemma PopChatWaiting(q: Queue)
    requires WaitingOk(q, {}) && q.waitingSlots != [] && q.waitingSlots[0] !in q.waitingTaskFns
    ensures WaitingOk(PopChat(q), {q.waitingSlots[0]})
    ensures var key := q.waitingSlots[0];
            key in q.slots && WantsRun(q.slots[key]) && key !in q.waitingSlots[1..]
  {}

  /** A waiting entry is always startable: a round of the loop starts exactly it. */
  lemma StartNextWaitingKeeps(q: Queue)
    requires Mid(q, {}) && q.waitingSlots != [] && q.activeCount < q.cap
    ensures Mid(StartNextWaiting(q), {})
    ensures ActiveKeys(StartNextWaiting(q)) == ActiveKeys(q) + {q.waitingSlots[0]}
    ensures q.waitingSlots[0] !in ActiveKeys(q)
  {
    hide CountsOk, WaitingOk, LedgerOk, RollbackOk, SitesOk;
    var next := q.waitingSlots[0];
    if next in q.waitingTaskFns {
      PopTaskWaiting(q);
      SameCounts(q, PopTask(q));
      StandingsKeep(q, PopTask(q), {}, {});
      StartTaskKeeps(PopTask(q), next, q.waitingTaskFns[next].groupJid, q.waitingTaskFns[next]);
    } else {
      PopChatWaiting(q);
      SameCounts(q, PopChat(q));
      StandingsKeep(q, PopChat(q), {}, {next});
      ChatIsNoTask(q, next);
      StartRunKeeps(PopChat(q), next, {next});
    }
  }

  lemma ChatIsNoTask(q: Queue, jid: string)
    requires CountsOk(q) && jid in q.slots && q.slots[jid].taskId.None?
    ensures !IsTaskKey(jid)
  {}

  lemma StartNextWaitingTasks(q: Queue)
    requires WaitingOk(q, {}) && q.waitingSlots != []
    ensures var key := q.waitingSlots[0];
            var r := StartNextWaiting(q);
            && r.started == q.started + (if key in q.waitingTaskFns then [q.waitingTaskFns[key]] else [])
            && r.accepted == q.accepted && r.cap == q.cap && r.activeCount == q.activeCount + 1
            && TasksOf(r.waitingSlots, r.waitingTaskFns) == TasksOf(q.waitingSlots[1..], q.waitingTaskFns)
            && (forall k :: k in q.waitingSlots[1..] ==>
                  (k in r.waitingTaskFns <==> k in q.waitingTaskFns)
                  && (k in q.waitingTaskFns ==> r.waitingTaskFns[k] == q.waitingTaskFns[k]))
  {
    HeadOfWaiting(q);
    TasksOfOthers(q.waitingSlots[1..], q.waitingTaskFns, StartNextWaiting(q).waitingTaskFns);
  }

  lemma {:induction false} DrainWaitingKeeps(q: Queue)
    requires Mid(q, {}) && TasksOk(q)
    ensures Inv(DrainWaiting(q))
    decreases |q.waitingSlots|
  {
    hide CountsOk, WaitingOk, LedgerOk, RollbackOk, SitesOk, StartNextWaiting;
    if q.waitingSlots == [] || q.activeCount >= q.cap {
    } else {
      StartNextWaitingKeeps(q);
      StartNextWaitingTasks(q);
      DrainWaitingKeeps(StartNextWaiting(q));
    }
  }

  /** How many waiting entries there is room for. */
  function Room(q: Queue): (n: nat)
    ensures n <= |q.waitingSlots|
  {
    if q.activeCount >= q.cap then 0
    else if |q.waitingSlots| <= q.cap - q.activeCount then |q.waitingSlots|
    else q.cap - q.activeCount
  }

  /** The longest prefix of the waiting list that fits. */
  function Fits(q: Queue): seq<string> {
    q.waitingSlots[..Room(q)]
  }

  function DoesNotFit(q: Queue): seq<string> {
    q.waitingSlots[Room(q)..]
  }

  function Elements(s: seq<string>): set<string> {
    set k | k in s
  }

  lemma FitsAfterOne(q: Queue, p: Queue)
    requires q.waitingSlots != [] && q.activeCount < q.cap
    requires p.waitingSlots == q.waitingSlots[1..] && p.activeCount == q.activeCount + 1 && p.cap == q.cap
    ensures Fits(q) == [q.waitingSlots[0]] + Fits(p)
    ensures DoesNotFit(q) == DoesNotFit(p)
    ensures Fits(q)[1..] == Fits(p)
    ensures Elements(Fits(q)) == {q.waitingSlots[0]} + Elements(Fits(p))
    ensures forall k :: k in Fits(p) ==> k in q.waitingSlots[1..]
  {}

  /** drainWaiting makes the longest prefix of the waiting list that fits active, and nothing else. */
  lemma {:induction false} DrainWaitingActivatesPrefix(q: Queue)
    requires Mid(q, {})
    ensures DrainWaiting(q).waitingSlots == DoesNotFit(q)
    ensures ActiveKeys(DrainWaiting(q)) == ActiveKeys(q) + Elements(Fits(q))
    decreases |q.waitingSlots|
  {
    hide CountsOk, WaitingOk, LedgerOk, RollbackOk, SitesOk, StartNextWaiting, ActiveKeys;
    if q.waitingSlots == [] || q.activeCount >= q.cap {
    } else {
      StartNextWaitingKeeps(q);
      StartNextWaitingTasks(q);
      FitsAfterOne(q, StartNextWaiting(q));
      DrainWaitingActivatesPrefix(StartNextWaiting(q));
    }
  }

  /** Of the tasks, it starts those of that prefix, in order, each once. */
  lemma {:induction false} DrainWaitingStartsPrefix(q: Queue)
    requires Mid(q, {})
    ensures DrainWaiting(q).started == q.started + TasksOf(Fits(q), q.waitingTaskFns)
    decreases |q.waitingSlots|
  {
    hide CountsOk, WaitingOk, LedgerOk, RollbackOk, SitesOk, StartNextWaiting, ActiveKeys;
    if q.waitingSlots == [] || q.activeCount >= q.cap {
    } else {
      var p := StartNextWaiting(q);
      StartNextWaitingKeeps(q);
      StartNextWaitingTasks(q);
      FitsAfterOne(q, p);
      DrainWaitingStartsPrefix(p);
      TasksOfOthers(Fits(p), q.waitingTaskFns, p.waitingTaskFns);
    }
  }

  /** Nothing looks at the calls of processMessagesFn. */
  lemma FetchedKeeps(q: Queue, q': Queue)
    requires Mid(q, {}) && Busy(q, 0) && TasksOk(q) && q' == q.(fetched := q'.fetched)
    ensures Inv(q')
  {
    SameButHistory(q, q');
    StandingsKeepRollback(q, q');
    hide CountsOk, WaitingOk, LedgerOk, RollbackOk;
  }

  /** drainGroup, after a release or with the agent kept alive and idle. */
  lemma DrainGroupKeeps(q: Queue, jid: string, proc: ProcessView, hole: set<string>)
    requires Mid(q, hole) && hole <= {jid} && TasksOk(q)
    requires !IsTaskKey(jid) && jid in q.slots && jid !in q.waitingSlots
    requires var s := q.slots[jid];
             || (!s.active && q.activeCount < q.cap && Busy(q, 1))
             || (s.active && s.idleWaiting && s.hasProcess && !proc.killed && Busy(q, 0))
    ensures Inv(DrainGroup(q, jid, proc))
  {
    hide CountsOk, LedgerOk, RollbackOk, SitesOk;
    var s := q.slots[jid];
    if s.pendingMessages {
      if s.active {
        assert WaitingOk(q, {});
        SlotBound(q, jid);
        var p := SetSlot(q, jid, s.(pendingMessages := false));
        SetSlotKeeps(q, jid, s.(pendingMessages := false), {});
        FetchedKeeps(p, p.(fetched := q.fetched + [jid]));
      } else {
        StartRunKeeps(q, jid, hole);
      }
    } else {
      assert WaitingOk(q, {});
      DrainWaitingKeeps(q);
    }
  }

  lemma SlotBound(q: Queue, key: string)
    requires CountsOk(q) && key in q.slots
    ensures q.slots[key].retryCount <= MAX_RETRIES
    ensures q.slots[key].taskId.None? ==> q.slots[key].chatJid == key && !IsTaskKey(key)
    ensures IsTaskKey(key) ==> key in q.pendingRuns
    ensures q.activeCount <= q.cap
  {}
}
