/** The scheduler as the source has it: a class over mutable slot records. Each method computes exactly the
    function of QueueModel that its `ensures` names, and keeps the scheduler's invariant when the step is possible and
    disciplined. An async method is split at its await: the part before runs in the caller's step, the part after
    (`...Settled`) is a step of its own. */
module GroupQueueClass {
  import opened Options
  import opened QueueModel
  import M = QueueModel
  import opened QueueInvariants
  import R = QueueRuns

  class GroupState {
    const chatJid: string
    const taskId: Option<string>
    var active: bool
    var idleWaiting: bool
    var isTaskContainer: bool
    var runningTaskId: Option<string>
    var pendingMessages: bool
    var hasProcess: bool
    var groupFolder: Option<string>
    var retryCount: nat
    var pipedSinceOutput: nat
    var agentHasOutput: bool
    var inFlightCursorRollback: Option<string>
    var currentTurnStartCursor: Option<string>
    var currentTurnText: Option<string>
    var userTurnSeq: nat
    ghost var activation: nat

    constructor (chatJid: string, taskId: Option<string>)
      ensures Value() == NewSlot(chatJid, taskId)
    {
      this.chatJid, this.taskId := chatJid, taskId;
      active, idleWaiting, isTaskContainer, runningTaskId := false, false, taskId.Some?, taskId;
      pendingMessages, hasProcess, groupFolder, retryCount := false, false, None, 0;
      pipedSinceOutput, agentHasOutput := 0, false;
      inFlightCursorRollback, currentTurnStartCursor, currentTurnText := None, None, None;
      userTurnSeq, activation := 0, 0;
    }

    ghost function Value(): Slot
      reads this
    {
      Slot(chatJid, taskId, active, idleWaiting, isTaskContainer, runningTaskId, pendingMessages, hasProcess,
           groupFolder, retryCount, pipedSinceOutput, agentHasOutput, inFlightCursorRollback,
           currentTurnStartCursor, currentTurnText, userTurnSeq, activation)
    }

    method BeginRun(ghost number: nat)
      modifies this
      ensures Value() == RunStarted(old(Value()), number)
    {
      hide Value;
      BeginFlags(number);
      BeginTurn();
    }

    method BeginFlags(ghost number: nat)
      modifies this
      ensures Value() == old(Value()).(active := true, idleWaiting := false, isTaskContainer := false,
                                       pendingMessages := false, activation := number)
    {
      active, idleWaiting, isTaskContainer, pendingMessages, activation := true, false, false, false, number;
    }

    method BeginTurn()
      modifies this
      ensures Value() == old(Value()).(pipedSinceOutput := 0, agentHasOutput := false, inFlightCursorRollback := None,
                                       userTurnSeq := old(Value()).userTurnSeq + 1)
    {
      pipedSinceOutput, agentHasOutput, inFlightCursorRollback := 0, false, None;
      userTurnSeq := userTurnSeq + 1;
    }

    method BeginTask(task: QueuedTask, ghost number: nat)
      modifies this
      ensures Value() == TaskStarted(old(Value()), task.id, number)
    {
      active := true;
      idleWaiting := false;
      isTaskContainer := true;
      runningTaskId := Some(task.id);
      activation := number;
    }

    /** What every release does to the record. */
    method Release(site: Site)
      modifies this
      ensures Value() == SlotReleased(old(Value()), site)
    {
      active := false;
      hasProcess := false;
      groupFolder := None;
      if site != ByRunFinally {
        idleWaiting := false;
        inFlightCursorRollback := None;
      }
    }

    method RestoreTurn(cursor: Option<string>, text: Option<string>)
      modifies this
      ensures Value() == old(Value()).(currentTurnStartCursor := cursor, currentTurnText := text)
    {
      currentTurnStartCursor := cursor;
      currentTurnText := text;
    }

    method EndTask()
      modifies this
      ensures !active
    {
      active := false;
      isTaskContainer := false;
      runningTaskId := None;
      hasProcess := false;
      groupFolder := None;
    }

    method SetPending(pending: bool)
      modifies this
      ensures Value() == old(Value()).(pendingMessages := pending)
    {
      pendingMessages := pending;
    }

    method NoteProcess(groupFolder: string)
      modifies this`hasProcess, this`groupFolder
      ensures Value() == if groupFolder != "" then old(Value()).(hasProcess := true, groupFolder := Some(groupFolder))
                         else old(Value()).(hasProcess := true)
    {
      hasProcess := true;
      if groupFolder != "" {
        this.groupFolder := Some(groupFolder);
      }
    }

    method SetTurnStart(cursor: string)
      modifies this
      ensures Value() == old(Value()).(currentTurnStartCursor := Some(cursor))
    {
      currentTurnStartCursor := Some(cursor);
    }

    method SetIdle(idle: bool)
      modifies this
      ensures Value() == old(Value()).(idleWaiting := idle)
    {
      idleWaiting := idle;
    }

    method ClearRetries()
      modifies this
      ensures Value() == old(Value()).(retryCount := 0)
    {
      retryCount := 0;
    }

    method CountRetry() returns (delayMs: Option<nat>)
      modifies this
      ensures Value() == old(Value()).(retryCount := M.ScheduleRetry(old(retryCount)).0)
      ensures delayMs == M.ScheduleRetry(old(retryCount)).1
    {
      retryCount := retryCount + 1;
      if retryCount > MAX_RETRIES {
        retryCount := 0;
        return None;
      }
      delayMs := Some(BASE_RETRY_MS * Pow2(retryCount - 1));
    }

    method Pipe(text: string, rollbackCursor: string)
      modifies this
      ensures Value() == PipeInto(old(Value()), text, rollbackCursor)
    {
      pipedSinceOutput := pipedSinceOutput + 1;
      userTurnSeq := userTurnSeq + 1;
      if rollbackCursor != "" && Falsy(inFlightCursorRollback) {
        inFlightCursorRollback := Some(rollbackCursor);
      }
      if rollbackCursor != "" && Falsy(currentTurnStartCursor) {
        currentTurnStartCursor := Some(rollbackCursor);
      }
      currentTurnText := Some(if Falsy(currentTurnText) then text else currentTurnText.value + "\n" + text);
    }

    method SeeOutput()
      modifies this
      ensures Value() == OutputSeen(old(Value()))
    {
      pipedSinceOutput := 0;
      agentHasOutput := true;
      inFlightCursorRollback := None;
    }

    method TakeTurn()
      modifies this
      ensures Value() == TurnTaken(old(Value()))
    {
      currentTurnStartCursor := None;
      currentTurnText := None;
      pipedSinceOutput := 0;
      agentHasOutput := false;
    }
  }

  ghost function Values(slots: map<string, GroupState>): map<string, Slot>
    reads slots.Values
  {
    map k | k in slots :: slots[k].Value()
  }

  class GroupQueue {
    const cap: nat
    var slots: map<string, GroupState>
    var activeCount: int
    var waitingSlots: seq<string>
    var waitingTaskFns: map<string, QueuedTask>
    ghost var pendingRuns: multiset<string>
    ghost var activations: nat
    ghost var releases: seq<Release>
    ghost var accepted: seq<QueuedTask>
    ghost var started: seq<QueuedTask>
    ghost var marks: seq<Mark>
    ghost var fetched: seq<string>

    /** No two keys share a slot record. */
    ghost predicate Valid()
      reads this
    {
      forall k, l :: k in slots && l in slots && k != l ==> slots[k] != slots[l]
    }

    ghost function View(): Queue
      reads this, slots.Values
    {
      Queue(cap, Values(slots), activeCount, waitingSlots, waitingTaskFns,
            pendingRuns, activations, releases, accepted, started, marks, fetched)
    }

    constructor (cap: nat)
      ensures Valid() && View() == NewQueue(cap)
    {
      this.cap := cap;
      slots, activeCount, waitingSlots, waitingTaskFns := map[], 0, [], map[];
      pendingRuns, activations, releases, accepted, started := multiset{}, 0, [], [], [];
      marks, fetched := [], [];
    }

    // ---------------------------------------------------------------- slots

    method GetSlot(slotKey: string, chatJid: string, taskId: Option<string>) returns (state: GroupState)
      requires Valid()
      modifies this
      ensures Valid() && fresh(slots.Values - old(slots.Values))
      ensures slotKey in slots && slots[slotKey] == state
      ensures View() == M.GetSlot(old(View()), slotKey, chatJid, taskId)
    {
      if slotKey in slots {
        state := slots[slotKey];
      } else {
        state := new GroupState(chatJid, taskId);
        slots := slots[slotKey := state];
        assert slots[slotKey] == state;
        assert Values(slots) == old(Values(slots))[slotKey := NewSlot(chatJid, taskId)];
      }
    }

    method GetGroup(groupJid: string) returns (state: GroupState)
      requires Valid()
      modifies this
      ensures Valid() && fresh(slots.Values - old(slots.Values))
      ensures groupJid in slots && slots[groupJid] == state
      ensures View() == M.GetGroup(old(View()), groupJid)
    {
      state := GetSlot(groupJid, groupJid, None);
    }

    /** The record under `key` is what the view shows there. */
    lemma Seen(key: string)
      requires key in slots
      ensures key in View().slots && View().slots[key] == slots[key].Value()
      ensures var (s, state) := (View().slots[key], slots[key]);
              && s.active == state.active && s.idleWaiting == state.idleWaiting
              && s.isTaskContainer == state.isTaskContainer && s.pendingMessages == state.pendingMessages
              && s.hasProcess == state.hasProcess && s.groupFolder == state.groupFolder
              && s.pipedSinceOutput == state.pipedSinceOutput && s.agentHasOutput == state.agentHasOutput
              && s.inFlightCursorRollback == state.inFlightCursorRollback
              && s.currentTurnStartCursor == state.currentTurnStartCursor
              && s.currentTurnText == state.currentTurnText && s.chatJid == state.chatJid
              && s.retryCount == state.retryCount
    {}

    lemma SameKeys()
      ensures Values(slots).Keys == slots.Keys
    {}

    /** Only the record under `key` differs from what it was. */
    twostate lemma OneSlotChanged(key: string)
      requires old(Valid()) && Valid() && slots == old(slots) && key in slots
      requires forall k :: k in slots && k != key ==> unchanged(slots[k])
      ensures Values(slots) == old(Values(slots))[key := slots[key].Value()]
      ensures old(Values(slots))[key] == old(slots[key].Value())
    {
      forall k | k in slots && k != key ensures slots[k].Value() == old(slots[k].Value()) {}
    }

    /** The record under `key` has left the map, and the others are as they were. */
    twostate lemma OneSlotDropped(key: string)
      requires old(Valid()) && key in old(slots) && slots == old(slots) - {key}
      requires forall k :: k in slots ==> unchanged(slots[k])
      ensures key in old(Values(slots)) && Values(slots) == old(Values(slots)) - {key}
    {
      forall k | k in slots ensures slots[k].Value() == old(slots[k].Value()) {}
    }

    /** The number of the activation of the record under `key`. */
    ghost function Number(key: string): (n: nat)
      requires key in slots
      reads this, slots.Values
      ensures key in Values(slots) && n == Values(slots)[key].activation
    {
      slots[key].activation
    }

    // ---------------------------------------------------------------- activation and release

    /** runForGroup, up to its await. */
    method RunForGroup(groupJid: string)
      requires Valid()
      modifies this, slots.Values
      ensures Valid() && fresh(slots.Values - old(slots.Values))
      ensures View() == StartRun(old(View()), groupJid)
    {
      hide GroupState.Value, Values, RunStarted;
      var state := GetGroup(groupJid);
      label got:
      state.BeginRun(activations);
      OneSlotChanged@got(groupJid);
      activeCount := activeCount + 1;
      RecordStart(groupJid);
      fetched := fetched + [groupJid];
    }

    /** runTask, up to its await. */
    method RunTask(slotKey: string, chatJid: string, task: QueuedTask)
      requires Valid()
      modifies this, slots.Values
      ensures Valid() && fresh(slots.Values - old(slots.Values))
      ensures View() == StartTask(old(View()), slotKey, chatJid, task)
    {
      hide GroupState.Value, Values, TaskStarted;
      var state := GetSlot(slotKey, chatJid, Some(task.id));
      label got:
      state.BeginTask(task, activations);
      OneSlotChanged@got(slotKey);
      activeCount := activeCount + 1;
      RecordStart(slotKey);
      started := started + [task];
    }

    ghost method RecordStart(key: string)
      modifies this`activations, this`pendingRuns, this`marks
      ensures activations == old(activations) + 1 && pendingRuns == old(pendingRuns) + multiset{key}
      ensures marks == old(marks) + [Started(key)]
    {
      activations, pendingRuns, marks := activations + 1, pendingRuns + multiset{key}, marks + [Started(key)];
    }

    method ReleaseSlot(state: GroupState, ghost key: string, site: Site)
      requires Valid() && key in slots && slots[key] == state
      modifies this, state
      ensures Valid() && slots == old(slots)
      ensures View() == M.ReleaseSlot(old(View()), key, site)
    {
      hide GroupState.Value, Values, SlotReleased;
      ghost var number := state.Value().activation;
      label start:
      state.Release(site);
      OneSlotChanged@start(key);
      activeCount := activeCount - 1;
      releases := releases + [Release(key, number, site)];
      marks := marks + [Released(key, site)];
    }

    // ---------------------------------------------------------------- draining

    method DrainWaiting()
      requires Valid()
      modifies this, slots.Values
      ensures Valid() && fresh(slots.Values - old(slots.Values))
      ensures View() == M.DrainWaiting(old(View()))
    {
      while waitingSlots != [] && activeCount < cap
        invariant Valid() && fresh(slots.Values - old(slots.Values))
        invariant M.DrainWaiting(View()) == M.DrainWaiting(old(View()))
        decreases |waitingSlots|
      {
        StartNext();
      }
    }

    /** One round of drainWaiting's loop. */
    method StartNext()
      requires Valid() && waitingSlots != []
      modifies this, slots.Values
      ensures Valid() && fresh(slots.Values - old(slots.Values))
      ensures View() == StartNextWaiting(old(View()))
    {
      hide Values, StartTask, StartRun, M.GetGroup;
      var nextSlot := waitingSlots[0];
      waitingSlots := waitingSlots[1..];
      if nextSlot in waitingTaskFns {
        var pendingTask := waitingTaskFns[nextSlot];
        waitingTaskFns := waitingTaskFns - {nextSlot};
        RunTask(nextSlot, pendingTask.groupJid, pendingTask);
      } else {
        var state := GetGroup(nextSlot);
        Seen(nextSlot);
        if state.pendingMessages {
          RunForGroup(nextSlot);
        }
      }
    }

    /** The kept idle agent gets the new messages. */
    method PipeToIdle(state: GroupState, groupJid: string)
      requires Valid() && groupJid in slots && slots[groupJid] == state
      modifies this`fetched, state
      ensures Valid() && groupJid in old(View()).slots
      ensures View() == SetSlot(old(View()), groupJid, old(View()).slots[groupJid].(pendingMessages := false))
                        .(fetched := old(fetched) + [groupJid])
    {
      hide GroupState.Value, Values;
      Seen(groupJid);
      state.SetPending(false);
      OneSlotChanged(groupJid);
      fetched := fetched + [groupJid];
    }

    method DrainGroup(groupJid: string, proc: ProcessView)
      requires Valid()
      modifies this, slots.Values
      ensures Valid() && fresh(slots.Values - old(slots.Values))
      ensures View() == M.DrainGroup(old(View()), groupJid, proc)
    {
      var state := GetGroup(groupJid);
      Seen(groupJid);
      hide GroupState.Value, Values, M.GetGroup, StartRun, M.DrainWaiting;
      if state.pendingMessages {
        if state.active && state.idleWaiting && state.hasProcess && !proc.killed {
          PipeToIdle(state, groupJid);
          return;
        }
        RunForGroup(groupJid);
        return;
      }
      DrainWaiting();
    }

    // ---------------------------------------------------------------- enqueueing

    method EnqueueMessageCheck(groupJid: string)
      requires Valid()
      modifies this, slots.Values
      ensures Valid() && fresh(slots.Values - old(slots.Values))
      ensures View() == M.EnqueueMessageCheck(old(View()), groupJid)
      ensures R.GoodStep(old(View()), R.MessageCheck(groupJid)) ==> Inv(View())
    {
      hide R.GoodStep, Inv, Values, M.GetGroup, StartRun;
      R.GoodStepInv(View(), R.MessageCheck(groupJid));
      var state := GetGroup(groupJid);
      Seen(groupJid);
      label got:
      if state.active {
        state.SetPending(true);
        OneSlotChanged@got(groupJid);
        return;
      }
      if activeCount >= cap {
        state.SetPending(true);
        OneSlotChanged@got(groupJid);
        if groupJid !in waitingSlots {
          waitingSlots := waitingSlots + [groupJid];
        }
        return;
      }
      RunForGroup(groupJid);
    }

    method EnqueueTask(groupJid: string, taskId: string, fn: nat)
      requires Valid()
      modifies this, slots.Values
      ensures Valid() && fresh(slots.Values - old(slots.Values))
      ensures View() == M.EnqueueTask(old(View()), groupJid, taskId, fn)
      ensures R.GoodStep(old(View()), R.TaskDue(groupJid, taskId, fn)) ==> Inv(View())
    {
      hide R.GoodStep, Inv, Values, StartTask, TaskSlotKey, GroupState.Value;
      R.GoodStepInv(View(), R.TaskDue(groupJid, taskId, fn));
      var slotKey := TaskSlotKey(groupJid, taskId);
      SameKeys();
      if slotKey in slots {
        Seen(slotKey);
        if slots[slotKey].active { return; }
      }
      if slotKey in waitingTaskFns { return; }
      accepted := accepted + [QueuedTask(taskId, groupJid, fn)];
      if activeCount >= cap {
        ParkTask(slotKey, QueuedTask(taskId, groupJid, fn));
        return;
      }
      RunTask(slotKey, groupJid, QueuedTask(taskId, groupJid, fn));
    }

    method ParkTask(slotKey: string, task: QueuedTask)
      modifies this`waitingTaskFns, this`waitingSlots
      ensures waitingTaskFns == old(waitingTaskFns)[slotKey := task]
      ensures waitingSlots == if slotKey in old(waitingSlots) then old(waitingSlots) else old(waitingSlots) + [slotKey]
    {
      waitingTaskFns := waitingTaskFns[slotKey := task];
      if slotKey !in waitingSlots {
        waitingSlots := waitingSlots + [slotKey];
      }
    }

    // ---------------------------------------------------------------- settlement of runs

    /** The promise of runForGroup has settled: the retry counter is brought up to date. */
    method NoteOutcome(groupJid: string, outcome: RunOutcome) returns (delayMs: Option<nat>)
      requires Valid() && groupJid in slots
      modifies this, slots[groupJid]
      ensures Valid() && slots == old(slots)
      ensures groupJid in old(View()).slots
      ensures View() == SetSlot(old(View()), groupJid, AfterOutcome(old(View()).slots[groupJid], outcome))
                        .(pendingRuns := old(View()).pendingRuns - multiset{groupJid})
      ensures delayMs == if outcome.Failed? then M.ScheduleRetry(old(slots[groupJid].retryCount)).1 else None
    {
      hide GroupState.Value, Values, M.ScheduleRetry;
      Seen(groupJid);
      delayMs := None;
      if outcome.Succeeded? {
        slots[groupJid].ClearRetries();
      } else {
        delayMs := slots[groupJid].CountRetry();
      }
      OneSlotChanged(groupJid);
      pendingRuns := pendingRuns - multiset{groupJid};
    }

    /** runForGroup, from its await on; `delayMs` is the time until the retry timer calls
        enqueueMessageCheck, if it was set. */
    method RunForGroupSettled(groupJid: string, outcome: RunOutcome, proc: ProcessView) returns (delayMs: Option<nat>)
      requires Valid() && groupJid in slots
      modifies this, slots.Values
      ensures Valid() && fresh(slots.Values - old(slots.Values))
      ensures groupJid in old(View()).slots
      ensures View() == SettleRun(old(View()), groupJid, outcome, proc)
      ensures delayMs == if outcome.Failed? then M.ScheduleRetry(old(slots[groupJid].retryCount)).1 else None
      ensures R.GoodStep(old(View()), R.RunSettles(groupJid, outcome, proc)) ==> Inv(View())
    {
      hide R.GoodStep, Inv, GroupState.Value, Values, M.EndRun, M.ScheduleRetry;
      R.GoodStepInv(View(), R.RunSettles(groupJid, outcome, proc));
      delayMs := NoteOutcome(groupJid, outcome);
      EndRun(groupJid, proc);
    }

    /** runForGroup's finally block. */
    method EndRun(groupJid: string, proc: ProcessView)
      requires Valid() && groupJid in slots
      modifies this, slots.Values
      ensures Valid() && fresh(slots.Values - old(slots.Values))
      ensures groupJid in old(View()).slots && View() == M.EndRun(old(View()), groupJid, proc)
    {
      hide GroupState.Value, Values, M.DrainGroup, M.ReleaseSlot;
      var state := slots[groupJid];
      Seen(groupJid);
      var processAlive := state.hasProcess && !proc.exited && !proc.killed;
      if !(processAlive && state.idleWaiting) {
        ReleaseSlot(state, groupJid, ByRunFinally);
      }
      DrainGroup(groupJid, proc);
    }

    /** runTask's finally block up to drainWaiting. The record leaves the map, inactive. */
    method DropTask(state: GroupState, slotKey: string)
      requires Valid() && slotKey in slots && slots[slotKey] == state
      modifies this, state
      ensures Valid() && slots == old(slots) - {slotKey} && !state.active && state !in slots.Values
      ensures slotKey in old(View()).slots && View() == M.DropTask(old(View()), slotKey)
    {
      ghost var number := Number(slotKey);
      hide GroupState.Value, Values;
      RemoveRecord(state, slotKey);
      activeCount := activeCount - 1;
      RecordTaskRelease(slotKey, number);
    }

    method RemoveRecord(state: GroupState, slotKey: string)
      requires Valid() && slotKey in slots && slots[slotKey] == state
      modifies this`slots, state
      ensures Valid() && slots == old(slots) - {slotKey} && !state.active && state !in slots.Values
      ensures slotKey in old(Values(slots)) && Values(slots) == old(Values(slots)) - {slotKey}
    {
      hide GroupState.Value, Values;
      state.EndTask();
      slots := slots - {slotKey};
      OneSlotDropped(slotKey);
    }

    ghost method RecordTaskRelease(slotKey: string, number: nat)
      modifies this`pendingRuns, this`releases, this`marks
      ensures pendingRuns == old(pendingRuns) - multiset{slotKey}
      ensures releases == old(releases) + [Release(slotKey, number, ByTaskFinally)]
      ensures marks == old(marks) + [Released(slotKey, ByTaskFinally)]
    {
      pendingRuns := pendingRuns - multiset{slotKey};
      releases := releases + [Release(slotKey, number, ByTaskFinally)];
      marks := marks + [Released(slotKey, ByTaskFinally)];
    }

    /** runTask, from its await on. */
    method RunTaskSettled(state: GroupState, slotKey: string)
      requires Valid() && slotKey in slots && slots[slotKey] == state
      modifies this, slots.Values
      ensures Valid() && fresh(slots.Values - old(slots.Values))
      ensures slotKey in old(View()).slots && View() == SettleTask(old(View()), slotKey)
      ensures !state.active && state !in slots.Values
      ensures R.GoodStep(old(View()), R.TaskSettles(slotKey)) ==> Inv(View())
    {
      hide R.GoodStep, Inv, GroupState.Value, Values, M.DrainWaiting, M.DropTask;
      R.GoodStepInv(View(), R.TaskSettles(slotKey));
      DropTask(state, slotKey);
      DrainWaiting();
    }

    // ---------------------------------------------------------------- processes

    method RegisterProcess(slotKey: string, groupFolder: string)
      requires Valid()
      modifies this, slots.Values
      ensures Valid() && fresh(slots.Values - old(slots.Values))
      ensures View() == M.RegisterProcess(old(View()), slotKey, groupFolder)
      ensures R.GoodStep(old(View()), R.Registered(slotKey, groupFolder)) ==> Inv(View())
    {
      hide R.GoodStep, Inv, GroupState.Value, Values, M.GetGroup;
      R.GoodStepInv(View(), R.Registered(slotKey, groupFolder));
      SameKeys();
      if slotKey !in slots {
        if IsTaskKey(slotKey) { return; }
      }
      var state := GetGroup(slotKey);
      label got:
      state.NoteProcess(groupFolder);
      OneSlotChanged@got(slotKey);
    }

    /** The 'exit' listener. It holds the record it was registered on, which may have left the map since: only
        task records do, and they are inactive then (DropTask). `key` is the record's key otherwise. */
    method OnProcessExit(state: GroupState, ghost key: string, staleFiles: bool) returns (report: DeathReport)
      requires Valid()
      requires (key in slots && slots[key] == state) || (state !in slots.Values && !state.active)
      modifies this, slots.Values
      ensures Valid() && fresh(slots.Values - old(slots.Values))
      ensures report == ReportOnExit(old(state.Value()))
      ensures state in old(slots.Values) ==>
                key in old(View()).slots && View() == ProcessExit(old(View()), key, staleFiles)
      ensures state !in old(slots.Values) ==> View() == old(View())
      ensures state in old(slots.Values) && R.GoodStep(old(View()), R.Exited(key, staleFiles)) ==> Inv(View())
    {
      hide R.GoodStep, Inv;
      R.GoodStepInv(View(), R.Exited(key, staleFiles));
      var isCase1 := state.active && state.idleWaiting;
      var isCase2 := state.active && state.pipedSinceOutput > 0 && !state.agentHasOutput;
      var isCase3 := state.active && !state.idleWaiting && state.agentHasOutput;
      var hadInFlight := state.pipedSinceOutput > 0 && !state.agentHasOutput;
      report := NotCalled;
      if (isCase1 || isCase2 || isCase3) && (hadInFlight || isCase3) {
        report := Called(if hadInFlight then state.inFlightCursorRollback else None);
      }
      assert report == ReportOnExit(state.Value());
      assert ReleasesOnExit(state.Value()) <==> isCase1 || isCase2 || isCase3;
      hide GroupState.Value, Values, ReportOnExit, ReleasesOnExit, M.DrainGroup, M.ReleaseSlot;
      if state in slots.Values {
        Seen(key);
      }
      if isCase1 || isCase2 || isCase3 {
        hide ProcessExit;
        ReleaseOnExit(state, key, staleFiles);
      }
    }

    /** What the listener does when one of its cases holds. */
    method ReleaseOnExit(state: GroupState, ghost key: string, staleFiles: bool)
      requires Valid() && key in slots && slots[key] == state && ReleasesOnExit(state.Value())
      modifies this, slots.Values
      ensures Valid() && fresh(slots.Values - old(slots.Values))
      ensures key in old(View()).slots && View() == ProcessExit(old(View()), key, staleFiles)
    {
      hide GroupState.Value, Values, ReleasesOnExit, M.DrainGroup, M.ReleaseSlot;
      Seen(key);
      ghost var before := View();
      assert SetSlot(before, key, before.slots[key]) == before;
      if state.groupFolder.Some? && staleFiles {
        state.SetPending(true);
        OneSlotChanged(key);
      }
      ReleaseSlot(state, key, ByExitHandler);
      DrainGroup(state.chatJid, ProcessView(true, false));
    }

    /** notifyIdle and markIdle; the former's branch on pendingTasks is dead. */
    method MarkIdle(groupJid: string)
      requires Valid()
      modifies this, slots.Values
      ensures Valid() && fresh(slots.Values - old(slots.Values))
      ensures View() == M.MarkIdle(old(View()), groupJid)
      ensures R.GoodStep(old(View()), R.Idle(groupJid)) ==> Inv(View())
    {
      hide R.GoodStep, Inv;
      R.GoodStepInv(View(), R.Idle(groupJid));
      var state := GetGroup(groupJid);
      label got:
      state.SetIdle(true);
      OneSlotChanged@got(groupJid);
    }

    method NotifyTaskIdle(chatJid: string, taskId: string)
      requires Valid()
      modifies slots.Values
      ensures Valid()
      ensures View() == M.NotifyTaskIdle(old(View()), chatJid, taskId)
      ensures R.GoodStep(old(View()), R.TaskIdle(chatJid, taskId)) ==> Inv(View())
    {
      hide R.GoodStep, Inv;
      R.GoodStepInv(View(), R.TaskIdle(chatJid, taskId));
      var slotKey := TaskSlotKey(chatJid, taskId);
      if slotKey in slots {
        slots[slotKey].SetIdle(true);
        OneSlotChanged(slotKey);
      } else {
        assert Values(slots) == old(Values(slots));
      }
    }

    method RecycleIdleForAuthRefresh(groupJid: string, proc: ProcessView) returns (recycled: bool)
      requires Valid()
      modifies this, slots.Values
      ensures Valid() && fresh(slots.Values - old(slots.Values))
      ensures (View(), recycled) == RecycleIdle(old(View()), groupJid, proc)
      ensures R.GoodStep(old(View()), R.Recycled(groupJid, proc)) ==> Inv(View())
    {
      hide R.GoodStep, Inv;
      R.GoodStepInv(View(), R.Recycled(groupJid, proc));
      hide GroupState.Value, Values, M.GetGroup;
      var state := GetGroup(groupJid);
      Seen(groupJid);
      label got:
      if !state.active || !state.idleWaiting || !state.hasProcess || proc.exited || proc.killed {
        return false;
      }
      state.SetPending(true);
      OneSlotChanged@got(groupJid);
      return true;
    }

    method KillActive(groupJid: string) returns (killed: bool)
      requires Valid()
      modifies this, slots.Values
      ensures Valid() && fresh(slots.Values - old(slots.Values))
      ensures (View(), killed) == M.KillActive(old(View()), groupJid)
      ensures R.GoodStep(old(View()), R.Killed(groupJid)) ==> Inv(View())
    {
      hide R.GoodStep, Inv;
      R.GoodStepInv(View(), R.Killed(groupJid));
      var state := GetGroup(groupJid);
      label got:
      if !state.active { return false; }
      state.SetPending(false);
      OneSlotChanged@got(groupJid);
      return true;
    }

    // ---------------------------------------------------------------- piping and delivery cursors

    method SendMessage(groupJid: string, text: string, rollbackCursor: string, proc: ProcessView, written: bool)
      returns (sent: bool)
      requires Valid()
      modifies this, slots.Values
      ensures Valid() && fresh(slots.Values - old(slots.Values))
      ensures (View(), sent) == M.SendMessage(old(View()), groupJid, text, rollbackCursor, proc, written)
      ensures R.GoodStep(old(View()), R.Sent(groupJid, text, rollbackCursor, proc, written)) ==> Inv(View())
    {
      hide R.GoodStep, Inv, GroupState.Value, Values, M.ReleaseDead, M.GetGroup, PipeInto;
      R.GoodStepInv(View(), R.Sent(groupJid, text, rollbackCursor, proc, written));
      var state := GetGroup(groupJid);
      Seen(groupJid);
      label got:
      if !state.active || state.groupFolder.None? || state.isTaskContainer {
        return false;
      }
      if state.hasProcess && proc.exited {
        ReleaseDead(state, groupJid, proc);
        return false;
      }
      state.SetIdle(false);
      if !written {
        OneSlotChanged@got(groupJid);
        return false;
      }
      state.Pipe(text, rollbackCursor);
      OneSlotChanged@got(groupJid);
      marks := marks + [Piped(groupJid, rollbackCursor, text)];
      return true;
    }

    /** What sendMessage does when it finds the process dead. */
    method ReleaseDead(state: GroupState, groupJid: string, proc: ProcessView)
      requires Valid() && groupJid in slots && slots[groupJid] == state
      modifies this, slots.Values
      ensures Valid() && fresh(slots.Values - old(slots.Values))
      ensures groupJid in old(View()).slots && View() == M.ReleaseDead(old(View()), groupJid, proc)
    {
      hide GroupState.Value, Values, M.DrainGroup, M.ReleaseSlot;
      Seen(groupJid);
      ReleaseSlot(state, groupJid, BySendToDead);
      label released:
      state.SetPending(true);
      OneSlotChanged@released(groupJid);
      DrainGroup(groupJid, proc);
    }

    method SetCurrentTurnStartCursor(groupJid: string, cursor: string)
      requires Valid()
      modifies this, slots.Values
      ensures Valid() && fresh(slots.Values - old(slots.Values))
      ensures View() == M.SetCurrentTurnStartCursor(old(View()), groupJid, cursor)
      ensures R.GoodStep(old(View()), R.CursorSet(groupJid, cursor)) ==> Inv(View())
    {
      hide R.GoodStep, Inv, GroupState.Value, Values, M.GetGroup;
      R.GoodStepInv(View(), R.CursorSet(groupJid, cursor));
      var state := GetGroup(groupJid);
      label got:
      state.SetTurnStart(cursor);
      OneSlotChanged@got(groupJid);
    }

    method NotifyUserDelivery(groupJid: string)
      requires Valid()
      modifies this, slots.Values
      ensures Valid() && fresh(slots.Values - old(slots.Values))
      ensures View() == M.NotifyUserDelivery(old(View()), groupJid)
      ensures R.GoodStep(old(View()), R.UserDelivery(groupJid)) ==> Inv(View())
    {
      hide R.GoodStep, Inv, GroupState.Value, Values, M.GetGroup;
      R.GoodStepInv(View(), R.UserDelivery(groupJid));
      var state := GetGroup(groupJid);
      label got:
      state.RestoreTurn(None, None);
      OneSlotChanged@got(groupJid);
    }

    method NotifyAgentOutput(groupJid: string)
      requires Valid()
      modifies this, slots.Values
      ensures Valid() && fresh(slots.Values - old(slots.Values))
      ensures View() == M.NotifyAgentOutput(old(View()), groupJid)
      ensures R.GoodStep(old(View()), R.AgentOutput(groupJid)) ==> Inv(View())
    {
      hide R.GoodStep, Inv, GroupState.Value, Values, M.GetGroup;
      R.GoodStepInv(View(), R.AgentOutput(groupJid));
      var state := GetGroup(groupJid);
      label got:
      state.SeeOutput();
      OneSlotChanged@got(groupJid);
      marks := marks + [Output(groupJid)];
    }

    method RequestDeliveryRetry(groupJid: string, proc: ProcessView, written: bool) returns (cursor: Option<string>)
      requires Valid()
      modifies this, slots.Values
      ensures Valid() && fresh(slots.Values - old(slots.Values))
      ensures (View(), cursor) == M.RequestDeliveryRetry(old(View()), groupJid, proc, written)
      ensures R.GoodStep(old(View()), R.RetryRequested(groupJid, proc, written)) ==> Inv(View())
    {
      hide R.GoodStep, Inv, M.RequestDeliveryRetry;
      R.GoodStepInv(View(), R.RetryRequested(groupJid, proc, written));
      cursor := RetryTurn(groupJid, proc, written);
    }

    method TakeTurn(state: GroupState, groupJid: string)
      requires Valid() && groupJid in slots && slots[groupJid] == state
      modifies state
      ensures Valid() && groupJid in old(View()).slots
      ensures View() == SetSlot(old(View()), groupJid, TurnTaken(old(View()).slots[groupJid]))
    {
      hide GroupState.Value, Values, TurnTaken;
      Seen(groupJid);
      state.TakeTurn();
      OneSlotChanged(groupJid);
    }

    /** Take the turn out of the slot, send it, and put it back if it was not sent. */
    method RetryTurn(groupJid: string, proc: ProcessView, written: bool) returns (cursor: Option<string>)
      requires Valid()
      modifies this, slots.Values
      ensures Valid() && fresh(slots.Values - old(slots.Values))
      ensures (View(), cursor) == M.RequestDeliveryRetry(old(View()), groupJid, proc, written)
    {
      hide GroupState.Value, Values, M.SendMessage, M.GetGroup, TurnTaken, R.GoodStep, Inv;
      var state := GetGroup(groupJid);
      Seen(groupJid);
      cursor := state.currentTurnStartCursor;
      var text := state.currentTurnText;
      if cursor.None? || Falsy(text) { return; }
      TakeTurn(state, groupJid);
      var sent := SendMessage(groupJid, text.value, cursor.value, proc, written);
      state := GetGroup(groupJid);
      label sent:
      if !sent {
        state.RestoreTurn(cursor, text);
        OneSlotChanged@sent(groupJid);
      }
    }
  }
}
