/** The invariants of the scheduler, and what each primitive move does to them. */
module QueueInvariants {
  import opened Options
  import opened Text
  import opened QueueModel

  // ------------------------------------------------------------------ the invariant, part by part

  function ActiveKeys(q: Queue): set<string> {
    set k | k in q.slots && q.slots[k].active
  }

  ghost predicate NoDup(s: seq<string>) {
    forall i, j :: 0 <= i < j < |s| ==> s[i] != s[j]
  }

  ghost predicate SlotOk(key: string, s: Slot) {
    && (IsTaskKey(key) <==> s.taskId.Some?)
    && (!IsTaskKey(key) ==> s.chatJid == key && !s.isTaskContainer)
    && (IsTaskKey(key) ==> s.isTaskContainer && s.runningTaskId == s.taskId
                           && key == TaskSlotKey(s.chatJid, s.taskId.value) && s.chatJid != key)
    && s.retryCount <= MAX_RETRIES
  }

  ghost predicate SlotsOk(q: Queue) {
    forall k :: k in q.slots ==> SlotOk(k, q.slots[k])
  }

  /** The concurrency count is exact and bounded. */
  ghost predicate Accounted(q: Queue) {
    q.activeCount == |ActiveKeys(q)| <= q.cap
  }

  /** A pending run belongs to an active slot, one run each; a task slot exists only while it runs. */
  ghost predicate RunsOk(q: Queue) {
    && (forall k :: k in q.pendingRuns ==> q.pendingRuns[k] == 1 && k in ActiveKeys(q))
    && (forall k :: k in q.slots && q.slots[k].taskId.Some? ==> k in q.pendingRuns)
  }

  ghost predicate TaskKeyOk(key: string, task: QueuedTask) {
    key == TaskSlotKey(task.groupJid, task.id) && IsTaskKey(key)
  }

  /** An inactive chat slot with messages to process. */
  ghost predicate WantsRun(s: Slot) {
    s.taskId.None? && !s.active && s.pendingMessages
  }

  /** What waits and why. `hole` exempts a chat that is being looked after by the current step. */
  ghost predicate WaitingOk(q: Queue, hole: set<string>) {
    && NoDup(q.waitingSlots)
    && (forall k :: k in q.waitingTaskFns ==> k in q.waitingSlots && k !in q.slots && TaskKeyOk(k, q.waitingTaskFns[k]))
    && (forall k :: k in q.waitingSlots && k !in q.waitingTaskFns ==>
          k !in hole && k in q.slots && WantsRun(q.slots[k]))
    && (forall k :: k in q.slots && k !in hole && WantsRun(q.slots[k]) ==> k in q.waitingSlots)
  }

  /** Something waits only when the capacity (less `slack`) is used up. */
  ghost predicate Busy(q: Queue, slack: nat) {
    q.waitingSlots != [] ==> q.activeCount + slack >= q.cap
  }

  function ReleasedIds(q: Queue): set<nat> {
    set i | 0 <= i < |q.releases| :: q.releases[i].activation
  }

  function ActiveIds(q: Queue): set<nat> {
    set k | k in ActiveKeys(q) :: q.slots[k].activation
  }

  /** Every activation is either in force on exactly one slot or has been released exactly once. */
  ghost predicate LedgerOk(q: Queue) {
    && (forall i, j :: 0 <= i < j < |q.releases| ==> q.releases[i].activation != q.releases[j].activation)
    && (forall k, l :: k in ActiveKeys(q) && l in ActiveKeys(q) && k != l ==>
          q.slots[k].activation != q.slots[l].activation)
    && ReleasedIds(q) !! ActiveIds(q)
    && (forall n: nat :: n in ReleasedIds(q) + ActiveIds(q) <==> n < q.activations)
  }

  /** Exactly the releases of task slots are made by runTask's finally block. */
  ghost predicate SitesOk(releases: seq<Release>) {
    forall i :: 0 <= i < |releases| ==> (releases[i].site == ByTaskFinally <==> IsTaskKey(releases[i].key))
  }

  predicate Resets(m: Mark, key: string, anyRelease: bool) {
    && m.key == key
    && match m
       case Piped(_, _, _) => false
       case Output(_) => true
       case Started(_) => true
       case Released(_, site) => anyRelease || site == ByExitHandler || site == BySendToDead
  }

  /** The marks after the last one that resets `key`. */
  function SinceReset(marks: seq<Mark>, key: string, anyRelease: bool): seq<Mark> {
    if marks == [] then []
    else
      var m := marks[|marks| - 1];
      if Resets(m, key, anyRelease) then [] else SinceReset(marks[..|marks| - 1], key, anyRelease) + [m]
  }

  /** The non-empty cursors piped on `key`, in order. */
  function Cursors(marks: seq<Mark>, key: string): seq<string> {
    if marks == [] then []
    else
      var m := marks[|marks| - 1];
      Cursors(marks[..|marks| - 1], key) + if m.Piped? && m.key == key && m.cursor != "" then [m.cursor] else []
  }

  function CursorsSinceReset(marks: seq<Mark>, key: string, anyRelease: bool): seq<string> {
    Cursors(SinceReset(marks, key, anyRelease), key)
  }

  function First(s: seq<string>): Option<string> {
    if s == [] then None else Some(s[0])
  }

  function RollbackOf(q: Queue, key: string): Option<string> {
    if key in q.slots then q.slots[key].inFlightCursorRollback else None
  }

  function ActiveRollbackOf(q: Queue, key: string): Option<string> {
    if key in ActiveKeys(q) then q.slots[key].inFlightCursorRollback else None
  }

  /** The rollback cursor against the history: counting only the releases that clear it, and counting all. */
  ghost predicate RollbackOk(q: Queue) {
    && (forall k :: First(CursorsSinceReset(q.marks, k, false)) == RollbackOf(q, k))
    && (forall k :: First(CursorsSinceReset(q.marks, k, true)) == ActiveRollbackOf(q, k))
    && (forall k :: k in q.slots && q.slots[k].taskId.Some? ==> q.slots[k].inFlightCursorRollback == None)
  }

  function TasksOf(keys: seq<string>, fns: map<string, QueuedTask>): seq<QueuedTask> {
    if keys == [] then []
    else (if keys[0] in fns then [fns[keys[0]]] else []) + TasksOf(keys[1..], fns)
  }

  /** Tasks are conserved: each accepted one is waiting or was started, once. */
  ghost predicate TasksOk(q: Queue) {
    multiset(q.accepted) == multiset(q.started) + multiset(TasksOf(q.waitingSlots, q.waitingTaskFns))
  }

  ghost predicate CountsOk(q: Queue) {
    SlotsOk(q) && Accounted(q) && RunsOk(q)
  }

  /** What holds inside a step too. */
  ghost predicate Mid(q: Queue, hole: set<string>) {
    CountsOk(q) && WaitingOk(q, hole) && LedgerOk(q) && RollbackOk(q) && SitesOk(q.releases)
  }

  ghost predicate Inv(q: Queue) {
    Mid(q, {}) && Busy(q, 0) && TasksOk(q)
  }
}
