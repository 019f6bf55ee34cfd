/** What every GroupQueue operation does to the whole scheduler state, as functions on values.
    The class in GroupQueue.dfy is proved to compute exactly these functions.

    Two kinds of fields: the scheduler's own, and bookkeeping that the code never reads
    (`pendingRuns` to `fetched`), which records the promises in flight and what has happened so far. */
module QueueModel {
  import opened Options
  import opened Text

  const MAX_RETRIES: nat := 5
  const BASE_RETRY_MS: nat := 5000
  const TASK_MARK := "::task::"

  /** The source tells task slot keys from chat jids by this substring. */
  predicate IsTaskKey(key: string) {
    Includes(key, TASK_MARK)
  }

  function TaskSlotKey(groupJid: string, taskId: string): string {
    groupJid + TASK_MARK + taskId
  }

  lemma TaskSlotKeyIsTaskKey(groupJid: string, taskId: string)
    ensures IsTaskKey(TaskSlotKey(groupJid, taskId)) && TaskSlotKey(groupJid, taskId) != groupJid
  {
    assert OccursAt(TaskSlotKey(groupJid, taskId), TASK_MARK, |groupJid|);
  }

  /** A detached task; `fn` names the closure to run. */
  datatype QueuedTask = QueuedTask(id: string, groupJid: string, fn: nat)

  /** What the queue sees when it looks at a child process: exitCode !== null, and the killed flag. */
  datatype ProcessView = ProcessView(exited: bool, killed: bool) {
    predicate Alive() { !exited && !killed }
  }

  datatype Slot = Slot(
    chatJid: string,
    taskId: Option<string>,
    active: bool,
    idleWaiting: bool,
    isTaskContainer: bool,
    runningTaskId: Option<string>,
    pendingMessages: bool,
    hasProcess: bool,
    groupFolder: Option<string>,
    retryCount: nat,
    pipedSinceOutput: nat,
    agentHasOutput: bool,
    inFlightCursorRollback: Option<string>,
    currentTurnStartCursor: Option<string>,
    currentTurnText: Option<string>,
    userTurnSeq: nat,
    activation: nat  // bookkeeping: number of the slot's latest activation
  )

  datatype Site = ByExitHandler | BySendToDead | ByRunFinally | ByTaskFinally

  datatype Release = Release(key: string, activation: nat, site: Site)

  /** The events that bear on rollback cursors. */
  datatype Mark =
    | Piped(key: string, cursor: string, text: string)
    | Output(key: string)
    | Started(key: string)
    | Released(key: string, site: Site)

  datatype Queue = Queue(
    cap: nat,  // MAX_CONCURRENT_CONTAINERS
    slots: map<string, Slot>,
    activeCount: int,
    waitingSlots: seq<string>,
    waitingTaskFns: map<string, QueuedTask>,
    pendingRuns: multiset<string>,  // runForGroup and runTask promises not yet settled, by slot key
    activations: nat,               // how many activations there have been
    releases: seq<Release>,
    accepted: seq<QueuedTask>,      // tasks enqueueTask did not drop
    started: seq<QueuedTask>,       // tasks whose fn was called
    marks: seq<Mark>,
    fetched: seq<string>            // chats that processMessagesFn was called for
  )

  function NewQueue(cap: nat): Queue {
    Queue(cap, map[], 0, [], map[], multiset{}, 0, [], [], [], [], [])
  }

  function NewSlot(chatJid: string, taskId: Option<string>): Slot {
    Slot(chatJid, taskId, false, false, taskId.Some?, taskId, false, false, None, 0, 0, false,
         None, None, None, 0, 0)
  }

  function GetSlot(q: Queue, key: string, chatJid: string, taskId: Option<string>): (r: Queue)
    ensures key in r.slots
  {
    if key in q.slots then q else q.(slots := q.slots[key := NewSlot(chatJid, taskId)])
  }

  function GetGroup(q: Queue, groupJid: string): (r: Queue)
    ensures groupJid in r.slots
  {
    GetSlot(q, groupJid, groupJid, None)
  }

  function SetSlot(q: Queue, key: string, s: Slot): Queue {
    q.(slots := q.slots[key := s])
  }

  // ------------------------------------------------------------------ activation and release

  function RunStarted(s: Slot, activation: nat): Slot {
    s.(active := true, idleWaiting := false, isTaskContainer := false, pendingMessages := false,
       pipedSinceOutput := 0, agentHasOutput := false, inFlightCursorRollback := None,
       userTurnSeq := s.userTurnSeq + 1, activation := activation)
  }

  function TaskStarted(s: Slot, taskId: string, activation: nat): Slot {
    s.(active := true, idleWaiting := false, isTaskContainer := true, runningTaskId := Some(taskId),
       activation := activation)
  }

  /** The exit handler and sendMessage's dead-process path also clear idleWaiting and the rollback
      cursor; runForGroup's finally block does not. */
  function SlotReleased(s: Slot, site: Site): Slot {
    var s' := s.(active := false, hasProcess := false, groupFolder := None);
    if site.ByRunFinally? then s' else s'.(idleWaiting := false, inFlightCursorRollback := None)
  }

  /** runForGroup up to its await. */
  function StartRun(q: Queue, groupJid: string): Queue {
    var q := GetGroup(q, groupJid);
    SetSlot(q, groupJid, RunStarted(q.slots[groupJid], q.activations)).(
      activeCount := q.activeCount + 1,
      activations := q.activations + 1,
      pendingRuns := q.pendingRuns + multiset{groupJid},
      marks := q.marks + [Started(groupJid)],
      fetched := q.fetched + [groupJid])
  }

  /** runTask up to its await: task.fn has been called. */
  function StartTask(q: Queue, key: string, chatJid: string, task: QueuedTask): Queue {
    var q := GetSlot(q, key, chatJid, Some(task.id));
    SetSlot(q, key, TaskStarted(q.slots[key], task.id, q.activations)).(
      activeCount := q.activeCount + 1,
      activations := q.activations + 1,
      pendingRuns := q.pendingRuns + multiset{key},
      started := q.started + [task],
      marks := q.marks + [Started(key)])
  }

  function ReleaseSlot(q: Queue, key: string, site: Site): Queue
    requires key in q.slots
  {
    SetSlot(q, key, SlotReleased(q.slots[key], site)).(
      activeCount := q.activeCount - 1,
      releases := q.releases + [Release(key, q.slots[key].activation, site)],
      marks := q.marks + [Released(key, site)])
  }

  // ------------------------------------------------------------------ draining

  function DrainWaiting(q: Queue): Queue
    decreases |q.waitingSlots|
  {
    if q.waitingSlots != [] && q.activeCount < q.cap then DrainWaiting(StartNextWaiting(q)) else q
  }

  /** One round of drainWaiting's loop. */
  function StartNextWaiting(q: Queue): (r: Queue)
    requires q.waitingSlots != []
    ensures r.waitingSlots == q.waitingSlots[1..]
  {
    var next := q.waitingSlots[0];
    var q := q.(waitingSlots := q.waitingSlots[1..]);
    if next in q.waitingTaskFns then
      var task := q.waitingTaskFns[next];
      StartTask(q.(waitingTaskFns := q.waitingTaskFns - {next}), next, task.groupJid, task)
    else
      var q := GetGroup(q, next);
      if q.slots[next].pendingMessages then StartRun(q, next) else q
  }

  function DrainGroup(q: Queue, groupJid: string, proc: ProcessView): Queue {
    var q := GetGroup(q, groupJid);
    var s := q.slots[groupJid];
    if s.pendingMessages then
      if s.active && s.idleWaiting && s.hasProcess && !proc.killed then
        // processMessagesFn pipes to the idle agent
        SetSlot(q, groupJid, s.(pendingMessages := false)).(fetched := q.fetched + [groupJid])
      else
        StartRun(q, groupJid)
    else
      DrainWaiting(q)
  }

  // ------------------------------------------------------------------ enqueueing

  function EnqueueMessageCheck(q: Queue, groupJid: string): Queue {
    var q := GetGroup(q, groupJid);
    var s := q.slots[groupJid];
    if s.active then
      SetSlot(q, groupJid, s.(pendingMessages := true))
    else if q.activeCount >= q.cap then
      var q := SetSlot(q, groupJid, s.(pendingMessages := true));
      if groupJid in q.waitingSlots then q else q.(waitingSlots := q.waitingSlots + [groupJid])
    else
      StartRun(q, groupJid)
  }

  predicate TaskIsKnown(q: Queue, key: string) {
    (key in q.slots && q.slots[key].active) || key in q.waitingTaskFns
  }

  function EnqueueTask(q: Queue, groupJid: string, taskId: string, fn: nat): Queue {
    var key := TaskSlotKey(groupJid, taskId);
    var task := QueuedTask(taskId, groupJid, fn);
    if TaskIsKnown(q, key) then
      q
    else
      var q := q.(accepted := q.accepted + [task]);
      if q.activeCount >= q.cap then
        q.(waitingTaskFns := q.waitingTaskFns[key := task],
           waitingSlots := if key in q.waitingSlots then q.waitingSlots else q.waitingSlots + [key])
      else
        StartTask(q, key, groupJid, task)
  }

  // ------------------------------------------------------------------ settlement of runs

  datatype RunOutcome = Succeeded | Failed  // Failed: processMessagesFn returned false or threw

  function Pow2(n: nat): nat {
    if n == 0 then 1 else 2 * Pow2(n - 1)
  }

  /** The new retry count, and the backoff delay when a retry is scheduled. */
  function ScheduleRetry(retryCount: nat): (nat, Option<nat>) {
    if retryCount + 1 > MAX_RETRIES then (0, None)
    else (retryCount + 1, Some(BASE_RETRY_MS * Pow2(retryCount)))
  }

  function AfterOutcome(s: Slot, outcome: RunOutcome): Slot {
    s.(retryCount := if outcome.Succeeded? then 0 else ScheduleRetry(s.retryCount).0)
  }

  /** runForGroup from its await to the end. */
  function SettleRun(q: Queue, groupJid: string, outcome: RunOutcome, proc: ProcessView): Queue
    requires groupJid in q.slots
  {
    EndRun(SetSlot(q, groupJid, AfterOutcome(q.slots[groupJid], outcome))
           .(pendingRuns := q.pendingRuns - multiset{groupJid}), groupJid, proc)
  }

  /** runForGroup's finally block: an agent that lives and idles keeps its slot. */
  function EndRun(q: Queue, groupJid: string, proc: ProcessView): Queue
    requires groupJid in q.slots
  {
    var s := q.slots[groupJid];
    var q := if s.hasProcess && proc.Alive() && s.idleWaiting then q else ReleaseSlot(q, groupJid, ByRunFinally);
    DrainGroup(q, groupJid, proc)
  }

  /** runTask from its await to the end: the throwaway slot is dropped. */
  function SettleTask(q: Queue, key: string): Queue
    requires key in q.slots
  {
    DrainWaiting(DropTask(q, key))
  }

  function DropTask(q: Queue, key: string): Queue
    requires key in q.slots
  {
    q.(slots := q.slots - {key},
       activeCount := q.activeCount - 1,
       pendingRuns := q.pendingRuns - multiset{key},
       releases := q.releases + [Release(key, q.slots[key].activation, ByTaskFinally)],
       marks := q.marks + [Released(key, ByTaskFinally)])
  }

  // ------------------------------------------------------------------ processes

  function RegisterProcess(q: Queue, key: string, groupFolder: string): Queue {
    if key !in q.slots && IsTaskKey(key) then
      q
    else
      var q := GetGroup(q, key);
      var s := q.slots[key].(hasProcess := true);
      SetSlot(q, key, if groupFolder != "" then s.(groupFolder := Some(groupFolder)) else s)
  }

  /** The three cases in which the exit listener releases the slot. */
  predicate ReleasesOnExit(s: Slot) {
    || (s.active && s.idleWaiting)
    || (s.active && s.pipedSinceOutput > 0 && !s.agentHasOutput)
    || (s.active && !s.idleWaiting && s.agentHasOutput)
  }

  /** What the died-without-output listener is told; None when it is not called. */
  datatype DeathReport = NotCalled | Called(rollback: Option<string>)

  function ReportOnExit(s: Slot): DeathReport {
    var hadInFlight := s.pipedSinceOutput > 0 && !s.agentHasOutput;
    if ReleasesOnExit(s) && (hadInFlight || (!s.idleWaiting && s.agentHasOutput))
    then Called(if hadInFlight then s.inFlightCursorRollback else None)
    else NotCalled
  }

  /** The 'exit' listener registered on the slot; `staleFiles` says whether IPC files were left. */
  function ProcessExit(q: Queue, key: string, staleFiles: bool): Queue
    requires key in q.slots
  {
    var s := q.slots[key];
    if ReleasesOnExit(s) then
      var s := if s.groupFolder.Some? && staleFiles then s.(pendingMessages := true) else s;
      DrainGroup(ReleaseSlot(SetSlot(q, key, s), key, ByExitHandler), s.chatJid, ProcessView(true, false))
    else
      q
  }

  function MarkIdle(q: Queue, groupJid: string): Queue {
    var q := GetGroup(q, groupJid);
    SetSlot(q, groupJid, q.slots[groupJid].(idleWaiting := true))
  }

  function NotifyTaskIdle(q: Queue, chatJid: string, taskId: string): Queue {
    var key := TaskSlotKey(chatJid, taskId);
    if key in q.slots then SetSlot(q, key, q.slots[key].(idleWaiting := true)) else q
  }

  function RecycleIdle(q: Queue, groupJid: string, proc: ProcessView): (Queue, bool) {
    var q := GetGroup(q, groupJid);
    var s := q.slots[groupJid];
    if !s.active || !s.idleWaiting || !s.hasProcess || !proc.Alive() then (q, false)
    else (SetSlot(q, groupJid, s.(pendingMessages := true)), true)
  }

  function KillActive(q: Queue, groupJid: string): (Queue, bool) {
    var q := GetGroup(q, groupJid);
    var s := q.slots[groupJid];
    if !s.active then (q, false)
    else (SetSlot(q, groupJid, s.(pendingMessages := false)), true)
  }

  // ------------------------------------------------------------------ piping and delivery cursors

  predicate Sendable(s: Slot) {
    s.active && s.groupFolder.Some? && !s.isTaskContainer
  }

  /** sendMessage finds that the process it would pipe to has exited. */
  predicate FindsDead(s: Slot, proc: ProcessView) {
    Sendable(s) && s.hasProcess && proc.exited
  }

  function PipeInto(s: Slot, text: string, cursor: string): Slot {
    s.(pipedSinceOutput := s.pipedSinceOutput + 1,
       userTurnSeq := s.userTurnSeq + 1,
       inFlightCursorRollback :=
         if cursor != "" && Falsy(s.inFlightCursorRollback) then Some(cursor) else s.inFlightCursorRollback,
       currentTurnStartCursor :=
         if cursor != "" && Falsy(s.currentTurnStartCursor) then Some(cursor) else s.currentTurnStartCursor,
       currentTurnText :=
         Some(if Falsy(s.currentTurnText) then text else s.currentTurnText.value + "\n" + text))
  }

  /** The slot of the dead process is given back, and the group runs again. */
  function ReleaseDead(q: Queue, groupJid: string, proc: ProcessView): Queue
    requires groupJid in q.slots
  {
    var q := ReleaseSlot(q, groupJid, BySendToDead);
    DrainGroup(SetSlot(q, groupJid, q.slots[groupJid].(pendingMessages := true)), groupJid, proc)
  }

  /** `cursor` is "" when the caller passes none; `written` says whether the IPC write succeeds. */
  function SendMessage(q: Queue, groupJid: string, text: string, cursor: string, proc: ProcessView, written: bool)
    : (Queue, bool)
  {
    var q := GetGroup(q, groupJid);
    var s := q.slots[groupJid];
    if !Sendable(s) then
      (q, false)
    else if s.hasProcess && proc.exited then
      (ReleaseDead(q, groupJid, proc), false)
    else
      var s := s.(idleWaiting := false);
      if written then
        (SetSlot(q, groupJid, PipeInto(s, text, cursor)).(marks := q.marks + [Piped(groupJid, cursor, text)]), true)
      else
        (SetSlot(q, groupJid, s), false)
  }

  function SetCurrentTurnStartCursor(q: Queue, groupJid: string, cursor: string): Queue {
    var q := GetGroup(q, groupJid);
    SetSlot(q, groupJid, q.slots[groupJid].(currentTurnStartCursor := Some(cursor)))
  }

  function NotifyUserDelivery(q: Queue, groupJid: string): Queue {
    var q := GetGroup(q, groupJid);
    SetSlot(q, groupJid, q.slots[groupJid].(currentTurnStartCursor := None, currentTurnText := None))
  }

  function OutputSeen(s: Slot): Slot {
    s.(pipedSinceOutput := 0, agentHasOutput := true, inFlightCursorRollback := None)
  }

  function NotifyAgentOutput(q: Queue, groupJid: string): Queue {
    var q := GetGroup(q, groupJid);
    SetSlot(q, groupJid, OutputSeen(q.slots[groupJid]))
    .(marks := q.marks + [Output(groupJid)])
  }

  /** There is a failed turn to pipe again. */
  predicate HasRetryTurn(s: Slot) {
    s.currentTurnStartCursor.Some? && !Falsy(s.currentTurnText)
  }

  /** The failed turn is taken out of the slot, to be piped as a fresh one. */
  function TurnTaken(s: Slot): Slot {
    s.(currentTurnStartCursor := None, currentTurnText := None, pipedSinceOutput := 0, agentHasOutput := false)
  }

  function RequestDeliveryRetry(q: Queue, groupJid: string, proc: ProcessView, written: bool)
    : (Queue, Option<string>)
  {
    var q := GetGroup(q, groupJid);
    var s := q.slots[groupJid];
    if !HasRetryTurn(s) then
      (q, s.currentTurnStartCursor)
    else
      var (cursor, text) := (s.currentTurnStartCursor.value, s.currentTurnText.value);
      var q := SetSlot(q, groupJid, TurnTaken(s));
      var (q, sent) := SendMessage(q, groupJid, text, cursor, proc, written);
      var q := GetGroup(q, groupJid);
      if sent then (q, Some(cursor))
      else (SetSlot(q, groupJid, q.slots[groupJid].(
              currentTurnStartCursor := Some(cursor), currentTurnText := Some(text))), Some(cursor))
  }
}
