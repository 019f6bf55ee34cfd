/** What a chat's slot knows about the conversation, against the events of the run. Every theorem here is about all
    runs, disciplined or not. */
module QueueTurns {
  import opened Options
  import opened QueueModel
  import opened QueueInvariants
  import opened QueueMoves
  import opened QueueRuns
  import opened QueueCursors

  // ------------------------------------------------------------------ the conversation, from the events

  /** `texts` were piped since the user last got something; `start` is the start cursor set since then, `cursors` the
      non-empty ones piped since. `pipes` counts the messages piped and `output` says whether there was output since
      the run started, or a retry took the turn; `pipes` starts again at an output. `idle`: the agent has said that
      it waits, and has been told nothing since, nor has its death been seen. `told` is how often a message went out,
      retries included. `process` and `folder` were registered since the slot was last released. */
  datatype Talk = Talk(
    texts: seq<string>, start: Option<string>, cursors: seq<string>, pipes: nat, output: bool, idle: bool, told: nat,
    process: bool, folder: Option<string>)

  const SILENCE := Talk([], None, [], 0, false, false, 0, false, None)

  function JoinLines(texts: seq<string>): string {
    if texts == [] then ""
    else if |texts| == 1 then texts[0]
    else JoinLines(texts[..|texts| - 1]) + "\n" + texts[|texts| - 1]
  }

  function DropEmpty(texts: seq<string>): seq<string> {
    if texts != [] && texts[0] == "" then DropEmpty(texts[1..]) else texts
  }

  /** The texts on lines of their own; empty ones at the beginning leave no line. */
  function TurnText(texts: seq<string>): Option<string> {
    if texts == [] then None else Some(JoinLines(DropEmpty(texts)))
  }

  /** The cursor that was set, unless it is empty: then the first one piped, if there is one. */
  function StartCursor(t: Talk): Option<string> {
    if Falsy(t.start) && t.cursors != [] then Some(t.cursors[0]) else t.start
  }

  /** The chat's slot, or what it would be. */
  function SlotOf(q: Queue, jid: string): Slot {
    if jid in q.slots then q.slots[jid] else NewSlot(jid, None)
  }

  /** The agent is there to be told something, as far as the queue can see. */
  predicate Listens(s: Slot, proc: ProcessView) {
    Sendable(s) && !(s.hasProcess && proc.exited)
  }

  function Starts(q: Queue, jid: string): nat {
    multiset(q.marks)[Started(jid)]
  }

  /** How often the slot was released because its process was found dead, and how often at all. */
  function Deaths(q: Queue, jid: string): nat {
    multiset(q.marks)[Released(jid, ByExitHandler)] + multiset(q.marks)[Released(jid, BySendToDead)]
  }

  function Releases(q: Queue, jid: string): nat {
    Deaths(q, jid) + multiset(q.marks)[Released(jid, ByRunFinally)]
  }

  /** A turn is retained whose text is not empty. */
  predicate HasTurn(t: Talk) {
    StartCursor(t).Some? && !Falsy(TurnText(t.texts))
  }

  function Told(t: Talk, text: string, cursor: string): Talk {
    t.(texts := t.texts + [text], cursors := t.cursors + (if cursor == "" then [] else [cursor]),
       pipes := t.pipes + 1, told := t.told + 1)
  }

  /** A retry pipes the turn once more; a start cursor that is empty is lost. */
  function Retried(t: Talk): Talk {
    if StartCursor(t) == Some("") then t.(start := None, cursors := [], pipes := 1, told := t.told + 1)
    else t.(pipes := 1, told := t.told + 1)
  }

  function Heard(q: Queue, e: Event, jid: string, t: Talk): Talk {
    match e
    case Idle(j) => if j == jid then t.(idle := true) else t
    case CursorSet(j, cursor) => if j == jid then t.(start := Some(cursor), cursors := []) else t
    case UserDelivery(j) => if j == jid then t.(texts := [], start := None, cursors := []) else t
    case Registered(j, folder) =>
      if j == jid then t.(process := true, folder := if folder != "" then Some(folder) else t.folder) else t
    case AgentOutput(j) => if j == jid then t.(pipes := 0, output := true) else t
    case Sent(j, text, cursor, proc, written) =>
      if j != jid || !Listens(SlotOf(q, jid), proc) then t
      else if written then Told(t.(idle := false), text, cursor)
      else t.(idle := false)
    case RetryRequested(j, proc, written) =>
      if j != jid || !HasTurn(t) then t
      else if !Listens(SlotOf(q, jid), proc) then t.(pipes := 0, output := false)
      else if written then Retried(t.(idle := false, output := false))
      else t.(idle := false, pipes := 0, output := false)
    case _ => t
  }

  /** What a slot forgets when it is released, and when a run of the chat starts: its agent has not been heard yet. */
  function Forget(q: Queue, q': Queue, jid: string, t: Talk): Talk {
    var t := if Releases(q', jid) > Releases(q, jid) then t.(process := false, folder := None) else t;
    var t := if Deaths(q', jid) > Deaths(q, jid) then t.(idle := false) else t;
    if Starts(q', jid) > Starts(q, jid) then t.(pipes := 0, output := false, idle := false) else t
  }

  /** The conversation after an event. */
  function Next(q: Queue, e: Event, jid: string, t: Talk): Talk
    requires Possible(q, e)
  {
    Forget(q, Step(q, e), jid, Heard(q, e, jid, t))
  }

  function TalkOf(q: Queue, events: seq<Event>, jid: string, t: Talk): Talk
    requires PossibleRun(q, events)
    decreases |events|
  {
    if events == [] then t else TalkOf(Step(q, events[0]), events[1..], jid, Next(q, events[0], jid, t))
  }

  // ------------------------------------------------------------------ what a slot knows

  ghost predicate Knows(s: Slot, t: Talk) {
    && s.currentTurnText == TurnText(t.texts) && s.currentTurnStartCursor == StartCursor(t)
    && s.pipedSinceOutput == t.pipes && s.agentHasOutput == t.output
    && s.idleWaiting == t.idle && s.hasProcess == t.process && s.groupFolder == t.folder
    && forall c :: c in t.cursors ==> c != ""
  }

  /** Nothing has been said: the slot at most started `runs` runs, or was released. */
  predicate Unsaid(s: Slot, s': Slot, runs: nat, died: bool, released: bool) {
    && s'.currentTurnText == s.currentTurnText && s'.currentTurnStartCursor == s.currentTurnStartCursor
    && s'.userTurnSeq == s.userTurnSeq + runs
    && s'.hasProcess == (s.hasProcess && !released) && s'.groupFolder == (if released then None else s.groupFolder)
    && s'.idleWaiting == (s.idleWaiting && runs == 0 && !died)
    && s'.pipedSinceOutput == (if runs > 0 then 0 else s.pipedSinceOutput)
    && s'.agentHasOutput == (s.agentHasOutput && runs == 0)
  }

  ghost predicate Quietly(q: Queue, q': Queue, jid: string) {
    && Starts(q', jid) >= Starts(q, jid) && Deaths(q', jid) >= Deaths(q, jid) && Releases(q', jid) >= Releases(q, jid)
    && Unsaid(SlotOf(q, jid), SlotOf(q', jid), Starts(q', jid) - Starts(q, jid), Deaths(q', jid) > Deaths(q, jid),
              Releases(q', jid) > Releases(q, jid))
  }

  lemma QuietlyOn(q: Queue, p: Queue, r: Queue, jid: string)
    requires Quietly(q, p, jid) && Quietly(p, r, jid)
    ensures Quietly(q, r, jid)
  {
    hide Starts, SlotOf, Deaths, Releases;
  }

  lemma JoinOneMore(texts: seq<string>, text: string)
    ensures TurnText(texts + [text])
         == Some(if Falsy(TurnText(texts)) then text else TurnText(texts).value + "\n" + text)
  {
    DropEmptyOneMore(texts, text);
    var kept := DropEmpty(texts);
    if kept == [] {
      JoinOne(text);
    } else {
      FirstNotEmpty(texts);
      JoinNotEmpty(kept);
      assert (kept + [text])[..|kept|] == kept;
    }
  }

  lemma JoinOne(text: string)
    ensures JoinLines(DropEmpty([text])) == text
  {
    assert [text][1..] == [];
  }

  lemma {:induction false} DropEmptyOneMore(texts: seq<string>, text: string)
    ensures DropEmpty(texts + [text]) == if DropEmpty(texts) == [] then DropEmpty([text]) else DropEmpty(texts) + [text]
  {
    if texts == [] {
    } else {
      assert (texts + [text])[1..] == texts[1..] + [text];
      DropEmptyOneMore(texts[1..], text);
    }
  }

  lemma {:induction false} FirstNotEmpty(texts: seq<string>)
    ensures DropEmpty(texts) != [] ==> DropEmpty(texts)[0] != ""
  {
    if texts == [] {
    } else {
      FirstNotEmpty(texts[1..]);
    }
  }

  lemma {:induction false} JoinNotEmpty(texts: seq<string>)
    requires texts != [] && texts[0] != ""
    ensures JoinLines(texts) != ""
  {
    if |texts| == 1 {
    } else {
      JoinNotEmpty(texts[..|texts| - 1]);
    }
  }

  // ------------------------------------------------------------------ moves that say nothing

  lemma OneMoreMark(marks: seq<Mark>, m: Mark, n: Mark)
    ensures multiset(marks + [m])[n] == multiset(marks)[n] + (if m == n then 1 else 0)
  {}

  /** What one more mark counts for. */
  lemma MarkCounts(q: Queue, q': Queue, m: Mark, jid: string)
    requires q'.marks == q.marks + [m]
    ensures Starts(q', jid) == Starts(q, jid) + (if m == Started(jid) then 1 else 0)
    ensures var died := m == Released(jid, ByExitHandler) || m == Released(jid, BySendToDead);
            Deaths(q', jid) == Deaths(q, jid) + (if died then 1 else 0)
    ensures Releases(q', jid) == Releases(q, jid)
                                 + (if m.Released? && m.key == jid && m.site != ByTaskFinally then 1 else 0)
  {
    OneMoreMark(q.marks, m, Started(jid));
    OneMoreMark(q.marks, m, Released(jid, ByExitHandler));
    OneMoreMark(q.marks, m, Released(jid, BySendToDead));
    OneMoreMark(q.marks, m, Released(jid, ByRunFinally));
  }

  lemma SameCounts(q: Queue, q': Queue, jid: string)
    requires q'.marks == q.marks
    ensures Starts(q', jid) == Starts(q, jid) && Deaths(q', jid) == Deaths(q, jid)
    ensures Releases(q', jid) == Releases(q, jid)
  {}

  lemma GroupQuietly(q: Queue, k: string, jid: string)
    ensures Quietly(q, GetGroup(q, k), jid)
  {
    SameCounts(q, GetGroup(q, k), jid);
    hide Starts, Deaths, Releases;
  }

  lemma SlotQuietly(q: Queue, k: string, s: Slot, jid: string)
    requires k in q.slots && Unsaid(q.slots[k], s, 0, false, false)
    ensures Quietly(q, SetSlot(q, k, s), jid)
  {
    SameCounts(q, SetSlot(q, k, s), jid);
    hide Starts, Deaths, Releases;
  }

  lemma RunQuietly(q: Queue, k: string, jid: string)
    ensures Quietly(q, StartRun(q, k), jid)
  {
    MarkCounts(q, StartRun(q, k), Started(k), jid);
    hide Starts, Deaths, Releases;
  }

  lemma TaskQuietly(q: Queue, k: string, chatJid: string, task: QueuedTask, jid: string)
    requires k != jid
    ensures Quietly(q, StartTask(q, k, chatJid, task), jid)
  {
    MarkCounts(q, StartTask(q, k, chatJid, task), Started(k), jid);
    hide Starts, Deaths, Releases;
  }

  lemma ReleaseQuietly(q: Queue, k: string, site: Site, jid: string)
    requires k in q.slots && site != ByTaskFinally
    ensures Quietly(q, ReleaseSlot(q, k, site), jid)
  {
    MarkCounts(q, ReleaseSlot(q, k, site), Released(k, site), jid);
    hide Starts, Deaths, Releases;
  }

  lemma DropQuietly(q: Queue, k: string, jid: string)
    requires k in q.slots && k != jid
    ensures Quietly(q, DropTask(q, k), jid)
  {
    MarkCounts(q, DropTask(q, k), Released(k, ByTaskFinally), jid);
    hide Starts, Deaths, Releases;
  }

  lemma NextWaitingQuietly(q: Queue, jid: string)
    requires q.waitingSlots != [] && jid !in q.waitingTaskFns
    ensures Quietly(q, StartNextWaiting(q), jid) && jid !in StartNextWaiting(q).waitingTaskFns
  {
    hide Quietly;
    var next := q.waitingSlots[0];
    var p := q.(waitingSlots := q.waitingSlots[1..]);
    if next in q.waitingTaskFns {
      var r := p.(waitingTaskFns := p.waitingTaskFns - {next});
      BookQuietly(q, r, jid);
      TaskQuietly(r, next, q.waitingTaskFns[next].groupJid, q.waitingTaskFns[next], jid);
      QuietlyOn(q, r, StartNextWaiting(q), jid);
    } else {
      BookQuietly(q, p, jid);
      GroupQuietly(p, next, jid);
      QuietlyOn(q, p, GetGroup(p, next), jid);
      RunQuietly(GetGroup(p, next), next, jid);
      hide StartRun;
      if GetGroup(p, next).slots[next].pendingMessages {
        QuietlyOn(q, GetGroup(p, next), StartRun(GetGroup(p, next), next), jid);
      }
    }
  }

  /** Slots and marks are as they were. */
  lemma BookQuietly(q: Queue, q': Queue, jid: string)
    requires q'.slots == q.slots && q'.marks == q.marks
    ensures Quietly(q, q', jid)
  {
    SameCounts(q, q', jid);
    hide Starts, Deaths, Releases;
  }

  lemma {:induction false} DrainQuietly(q: Queue, jid: string)
    requires jid !in q.waitingTaskFns
    ensures Quietly(q, DrainWaiting(q), jid)
    decreases |q.waitingSlots|
  {
    hide Quietly, StartNextWaiting;
    if q.waitingSlots == [] || q.activeCount >= q.cap {
      BookQuietly(q, q, jid);
    } else {
      var p := StartNextWaiting(q);
      NextWaitingQuietly(q, jid);
      DrainQuietly(p, jid);
      QuietlyOn(q, p, DrainWaiting(p), jid);
    }
  }

  lemma DrainGroupQuietly(q: Queue, k: string, proc: ProcessView, jid: string)
    requires jid !in q.waitingTaskFns
    ensures Quietly(q, DrainGroup(q, k, proc), jid)
  {
    hide Quietly, StartRun, DrainWaiting;
    var p := GetGroup(q, k);
    GroupQuietly(q, k, jid);
    if p.slots[k].pendingMessages {
      var s := p.slots[k].(pendingMessages := false);
      SlotQuietly(p, k, s, jid);
      var handed := SetSlot(p, k, s);
      BookQuietly(handed, handed.(fetched := p.fetched + [k]), jid);
      QuietlyOn(p, handed, handed.(fetched := p.fetched + [k]), jid);
      RunQuietly(p, k, jid);
    } else {
      DrainQuietly(p, jid);
    }
    QuietlyOn(q, p, DrainGroup(q, k, proc), jid);
  }

  lemma ReleasedAndDrained(q: Queue, k: string, site: Site, chat: string, pending: bool, proc: ProcessView, jid: string)
    requires k in q.slots && jid !in q.waitingTaskFns && site != ByTaskFinally
    ensures var p := ReleaseSlot(q, k, site);
            && Quietly(q, DrainGroup(p, chat, proc), jid)
            && Quietly(q, DrainGroup(SetSlot(p, k, p.slots[k].(pendingMessages := pending)), chat, proc), jid)
  {
    hide Quietly, DrainGroup;
    var p := ReleaseSlot(q, k, site);
    var s := p.slots[k].(pendingMessages := pending);
    ReleaseQuietly(q, k, site, jid);
    SlotQuietly(p, k, s, jid);
    QuietlyOn(q, p, SetSlot(p, k, s), jid);
    DrainGroupQuietly(p, chat, proc, jid);
    DrainGroupQuietly(SetSlot(p, k, s), chat, proc, jid);
    QuietlyOn(q, p, DrainGroup(p, chat, proc), jid);
    QuietlyOn(q, SetSlot(p, k, s), DrainGroup(SetSlot(p, k, s), chat, proc), jid);
  }

  // ------------------------------------------------------------------ events that say nothing to the chat

  lemma SettlesQuietly(q: Queue, k: string, outcome: RunOutcome, proc: ProcessView, jid: string)
    requires k in q.slots && jid !in q.waitingTaskFns
    ensures Quietly(q, SettleRun(q, k, outcome, proc), jid)
  {
    hide Quietly, DrainGroup, ReleaseSlot;
    var s := AfterOutcome(q.slots[k], outcome);
    var p := SetSlot(q, k, s).(pendingRuns := q.pendingRuns - multiset{k});
    SlotQuietly(q, k, s, jid);
    BookQuietly(SetSlot(q, k, s), p, jid);
    QuietlyOn(q, SetSlot(q, k, s), p, jid);
    DrainGroupQuietly(p, k, proc, jid);
    ReleasedAndDrained(p, k, ByRunFinally, k, false, proc, jid);
    QuietlyOn(q, p, SettleRun(q, k, outcome, proc), jid);
  }

  lemma ExitQuietly(q: Queue, k: string, staleFiles: bool, jid: string)
    requires k in q.slots && jid !in q.waitingTaskFns
    ensures Quietly(q, ProcessExit(q, k, staleFiles), jid)
  {
    hide Quietly, DrainGroup, ReleaseSlot;
    var s := q.slots[k];
    var s' := if s.groupFolder.Some? && staleFiles then s.(pendingMessages := true) else s;
    BookQuietly(q, q, jid);
    if ReleasesOnExit(s) {
      SlotQuietly(q, k, s', jid);
      ReleasedAndDrained(SetSlot(q, k, s'), k, ByExitHandler, s.chatJid, false, ProcessView(true, false), jid);
      QuietlyOn(q, SetSlot(q, k, s'), ProcessExit(q, k, staleFiles), jid);
    }
  }

  lemma EnqueueQuietly(q: Queue, k: string, jid: string)
    ensures Quietly(q, EnqueueMessageCheck(q, k), jid)
  {
    hide Quietly, StartRun;
    var p := GetGroup(q, k);
    GroupQuietly(q, k, jid);
    var s := p.slots[k].(pendingMessages := true);
    SlotQuietly(p, k, s, jid);
    var marked := SetSlot(p, k, s);
    BookQuietly(marked, marked.(waitingSlots := marked.waitingSlots + [k]), jid);
    QuietlyOn(p, marked, marked.(waitingSlots := marked.waitingSlots + [k]), jid);
    RunQuietly(p, k, jid);
    QuietlyOn(q, p, EnqueueMessageCheck(q, k), jid);
  }

  lemma TaskDueQuietly(q: Queue, chat: string, taskId: string, fn: nat, jid: string)
    requires !IsTaskKey(jid)
    ensures Quietly(q, EnqueueTask(q, chat, taskId, fn), jid)
  {
    TaskSlotKeyIsTaskKey(chat, taskId);
    hide Quietly, StartTask, TaskSlotKey, IsTaskKey;
    var key, task := TaskSlotKey(chat, taskId), QueuedTask(taskId, chat, fn);
    var p := q.(accepted := q.accepted + [task]);
    BookQuietly(q, p, jid);
    if TaskIsKnown(q, key) || q.activeCount >= q.cap {
      BookQuietly(q, EnqueueTask(q, chat, taskId, fn), jid);
    } else {
      TaskQuietly(p, key, chat, task, jid);
      QuietlyOn(q, p, StartTask(p, key, chat, task), jid);
    }
  }

  /** Another chat's slot changes. */
  lemma OtherQuietly(q: Queue, q': Queue, jid: string)
    requires SlotOf(q', jid) == SlotOf(q, jid) && SameTally(q, q', jid)
    ensures Quietly(q, q', jid)
  {
    hide Starts, Deaths, Releases, SlotOf;
  }

  /** No run of the chat has started, and its slot has not been released. */
  predicate SameTally(q: Queue, q': Queue, jid: string) {
    && Starts(q', jid) == Starts(q, jid) && Deaths(q', jid) == Deaths(q, jid)
    && Releases(q', jid) == Releases(q, jid)
  }

  lemma PendingQuietly(q: Queue, e: Event, jid: string)
    requires Possible(q, e) && (e.Recycled? || e.Killed? || e.Looked?)
    ensures Quietly(q, Step(q, e), jid)
  {
    hide Quietly, IsTaskKey;
    var p := GetGroup(q, e.jid);
    GroupQuietly(q, e.jid, jid);
    var s := p.slots[e.jid].(pendingMessages := e.Recycled?);
    SlotQuietly(p, e.jid, s, jid);
    QuietlyOn(q, p, SetSlot(p, e.jid, s), jid);
  }

  lemma TaskIdleQuietly(q: Queue, chat: string, taskId: string, jid: string)
    requires !IsTaskKey(jid)
    ensures Quietly(q, NotifyTaskIdle(q, chat, taskId), jid)
  {
    TaskSlotKeyIsTaskKey(chat, taskId);
    hide IsTaskKey, TaskSlotKey;
    SameCounts(q, NotifyTaskIdle(q, chat, taskId), jid);
    OtherQuietly(q, NotifyTaskIdle(q, chat, taskId), jid);
    hide Starts, Deaths, Releases, Quietly;
  }

  lemma SendQuietly(q: Queue, k: string, text: string, cursor: string, proc: ProcessView, written: bool, jid: string)
    requires k in q.slots && jid !in q.waitingTaskFns && (k != jid || !Listens(q.slots[k], proc))
    ensures Quietly(q, SendMessage(q, k, text, cursor, proc, written).0, jid)
  {
    hide Quietly, DrainGroup, ReleaseSlot, PipeInto;
    BookQuietly(q, q, jid);
    if FindsDead(q.slots[k], proc) {
      ReleasedAndDrained(q, k, BySendToDead, k, true, proc, jid);
    } else if Sendable(q.slots[k]) {
      var r := SendMessage(q, k, text, cursor, proc, written).0;
      if written {
        MarkCounts(q, r, Piped(k, cursor, text), jid);
      } else {
        SameCounts(q, r, jid);
      }
      hide Starts, Deaths, Releases;
      OtherQuietly(q, SendMessage(q, k, text, cursor, proc, written).0, jid);
    }
  }

  lemma SentQuietly(q: Queue, k: string, text: string, cursor: string, proc: ProcessView, written: bool, jid: string)
    requires jid !in q.waitingTaskFns && (k != jid || !Listens(SlotOf(q, jid), proc))
    ensures Quietly(q, SendMessage(q, k, text, cursor, proc, written).0, jid)
  {
    hide Quietly, SendMessage;
    GroupQuietly(q, k, jid);
    SendQuietly(GetGroup(q, k), k, text, cursor, proc, written, jid);
    assert SendMessage(q, k, text, cursor, proc, written) == SendMessage(GetGroup(q, k), k, text, cursor, proc, written)
    by {
      SendSeesGroup(q, k, text, cursor, proc, written);
    }
    QuietlyOn(q, GetGroup(q, k), SendMessage(q, k, text, cursor, proc, written).0, jid);
  }

  lemma SendSeesGroup(q: Queue, k: string, text: string, cursor: string, proc: ProcessView, written: bool)
    ensures SendMessage(q, k, text, cursor, proc, written)
         == SendMessage(GetGroup(q, k), k, text, cursor, proc, written)
  {}

  // ------------------------------------------------------------------ events that say something

  ghost predicate Known(q: Queue, jid: string, t: Talk) {
    Knows(SlotOf(q, jid), t) && SlotOf(q, jid).userTurnSeq == Starts(q, jid) + t.told
  }

  /** When nothing is said the slot still knows what it knew, but for what a new run forgets. */
  lemma QuietlyKnown(q: Queue, q': Queue, jid: string, t: Talk)
    requires Known(q, jid, t) && Quietly(q, q', jid)
    ensures Known(q', jid, Forget(q, q', jid, t))
  {
    hide Starts, SlotOf, TurnText, Deaths, Releases;
  }

  lemma ToldKnows(s: Slot, t: Talk, text: string, cursor: string)
    requires Knows(s, t)
    ensures Knows(PipeInto(s, text, cursor).(idleWaiting := false), Told(t.(idle := false), text, cursor))
    ensures PipeInto(s, text, cursor).userTurnSeq == s.userTurnSeq + 1
    ensures Told(t.(idle := false), text, cursor).told == t.told + 1
  {
    JoinOneMore(t.texts, text);
    hide TurnText;
    var told := Told(t.(idle := false), text, cursor);
    assert t.cursors != [] ==> t.cursors[0] in t.cursors && told.cursors[0] == t.cursors[0];
  }

  /** The turn is taken out of the slot and piped once more. */
  lemma RetriedKnows(s: Slot, t: Talk)
    requires Knows(s, t) && HasRetryTurn(s)
    ensures Knows(PipeInto(TurnTaken(s).(idleWaiting := false), s.currentTurnText.value,
                           s.currentTurnStartCursor.value),
                  Retried(t.(idle := false, output := false)))
    ensures PipeInto(TurnTaken(s).(idleWaiting := false), s.currentTurnText.value,
                     s.currentTurnStartCursor.value).userTurnSeq == s.userTurnSeq + 1
    ensures Retried(t.(idle := false, output := false)).told == t.told + 1
  {
    hide TurnText;
  }

  lemma SentKnown(q: Queue, jid: string, text: string, cursor: string, proc: ProcessView, written: bool, t: Talk)
    requires Known(q, jid, t) && Listens(SlotOf(q, jid), proc)
    ensures var q' := SendMessage(q, jid, text, cursor, proc, written).0;
            Known(q', jid, if written then Told(t.(idle := false), text, cursor) else t.(idle := false))
            && SameTally(q, q', jid)
  {
    hide PipeInto, Told, TurnText;
    var s := q.slots[jid];
    ToldKnows(s, t, text, cursor);
    PipeLeavesIdle(s, text, cursor);
    var q' := SendMessage(q, jid, text, cursor, proc, written).0;
    if written {
      MarkCounts(q, q', Piped(jid, cursor, text), jid);
    } else {
      SameCounts(q, q', jid);
    }
    hide Starts, Deaths, Releases;
  }

  lemma PipeLeavesIdle(s: Slot, text: string, cursor: string)
    ensures PipeInto(s.(idleWaiting := false), text, cursor) == PipeInto(s, text, cursor).(idleWaiting := false)
  {}

  lemma SentNext(q: Queue, e: Event, jid: string, t: Talk)
    requires Known(q, jid, t) && Possible(q, e) && jid !in q.waitingTaskFns && e.Sent? && e.jid == jid
    ensures Known(Step(q, e), jid, Next(q, e, jid, t))
  {
    hide Known, SendMessage, Listens, IsTaskKey, Starts, Deaths, Releases, Told;
    if Listens(SlotOf(q, jid), e.proc) {
      SentKnown(q, jid, e.text, e.cursor, e.proc, e.written, t);
    } else {
      SentQuietly(q, jid, e.text, e.cursor, e.proc, e.written, jid);
      QuietlyKnown(q, Step(q, e), jid, t);
    }
  }

  /** The slot with its turn put back, after a send that did not go out. */
  function TurnBack(q: Queue, jid: string, cursor: string, text: string): Queue
    requires jid in q.slots
  {
    SetSlot(q, jid, q.slots[jid].(currentTurnStartCursor := Some(cursor), currentTurnText := Some(text)))
  }

  lemma TurnTakenKnown(s: Slot, t: Talk)
    requires Knows(s, t)
    ensures Knows(TurnTaken(s), t.(texts := [], start := None, cursors := [], pipes := 0, output := false))
  {}

  lemma TurnBackKnown(q: Queue, jid: string, t: Talk, t': Talk)
    requires jid in q.slots && Known(q, jid, t') && HasTurn(t) && forall c :: c in t.cursors ==> c != ""
    ensures Known(TurnBack(q, jid, StartCursor(t).value, TurnText(t.texts).value), jid,
                  t'.(texts := t.texts, start := t.start, cursors := t.cursors))
  {
    hide TurnText;
  }

  /** The turn is taken out, and nothing goes out. */
  lemma RetryFailsKnown(q: Queue, jid: string, proc: ProcessView, written: bool, t: Talk)
    requires jid in q.slots && Known(q, jid, t) && HasTurn(t) && jid !in q.waitingTaskFns
    requires !Listens(q.slots[jid], proc) || !written
    ensures var q' := RequestDeliveryRetry(q, jid, proc, written).0;
            var heard := if Listens(q.slots[jid], proc) then t.(idle := false, pipes := 0, output := false)
                         else t.(pipes := 0, output := false);
            Known(q', jid, Forget(q, q', jid, heard))
  {
    var s := q.slots[jid];
    var (cursor, text) := (s.currentTurnStartCursor.value, s.currentTurnText.value);
    var p := SetSlot(q, jid, TurnTaken(s));
    var taken := t.(texts := [], start := None, cursors := [], pipes := 0, output := false);
    TurnTakenKnown(s, t);
    assert Known(p, jid, taken);
    SendKeepsSlot(p, jid, text, cursor, proc, written);
    var r := SendMessage(p, jid, text, cursor, proc, written).0;
    RetryFails(q, jid, proc, written);
    hide Known, SendMessage, RequestDeliveryRetry, TurnText, IsTaskKey, Told;
    if Listens(s, proc) {
      SentKnown(p, jid, text, cursor, proc, written, taken);
      TurnBackKnown(r, jid, t, taken.(idle := false));
    } else {
      SentQuietly(p, jid, text, cursor, proc, written, jid);
      QuietlyKnown(p, r, jid, taken);
      TurnBackKnown(r, jid, t, Forget(p, r, jid, taken));
    }
  }

  lemma SendKeepsSlot(q: Queue, jid: string, text: string, cursor: string, proc: ProcessView, written: bool)
    requires jid in q.slots && jid !in q.waitingTaskFns
    ensures jid in SendMessage(q, jid, text, cursor, proc, written).0.slots
  {}

  lemma RetryFails(q: Queue, jid: string, proc: ProcessView, written: bool)
    requires jid in q.slots && HasRetryTurn(q.slots[jid]) && jid !in q.waitingTaskFns
    requires !Listens(q.slots[jid], proc) || !written
    ensures var s := q.slots[jid];
            var (cursor, text) := (s.currentTurnStartCursor.value, s.currentTurnText.value);
            var r := SendMessage(SetSlot(q, jid, TurnTaken(s)), jid, text, cursor, proc, written).0;
            && jid in r.slots
            && RequestDeliveryRetry(q, jid, proc, written).0 == TurnBack(r, jid, cursor, text)
  {
    var s := q.slots[jid];
    SendKeepsSlot(SetSlot(q, jid, TurnTaken(s)), jid, s.currentTurnText.value, s.currentTurnStartCursor.value, proc,
                  written);
    hide DrainGroup;
  }

  /** The turn is piped once more. */
  lemma RetrySendsKnown(q: Queue, jid: string, proc: ProcessView, t: Talk)
    requires jid in q.slots && Known(q, jid, t) && HasTurn(t) && Listens(q.slots[jid], proc)
    ensures var q' := RequestDeliveryRetry(q, jid, proc, true).0;
            Known(q', jid, Retried(t.(idle := false, output := false))) && SameTally(q, q', jid)
  {
    hide PipeInto, TurnText, Retried;
    var s := q.slots[jid];
    RetriedKnows(s, t);
    MarkCounts(q, RequestDeliveryRetry(q, jid, proc, true).0,
               Piped(jid, s.currentTurnStartCursor.value, s.currentTurnText.value), jid);
    hide Starts, Deaths, Releases;
  }

  lemma NoRetryKnown(q: Queue, jid: string, proc: ProcessView, written: bool, t: Talk)
    requires Known(q, jid, t) && !HasTurn(t)
    ensures var q' := RequestDeliveryRetry(q, jid, proc, written).0;
            Known(q', jid, t) && SameTally(q, q', jid)
  {
    hide TurnText, SendMessage;
  }

  /** The step looks at the slot as it will be. */
  lemma RetrySeesGroup(q: Queue, jid: string, proc: ProcessView, written: bool)
    ensures RequestDeliveryRetry(q, jid, proc, written) == RequestDeliveryRetry(GetGroup(q, jid), jid, proc, written)
    ensures SlotOf(GetGroup(q, jid), jid) == SlotOf(q, jid) && SameTally(q, GetGroup(q, jid), jid)
  {}

  lemma RetriedNext(q: Queue, e: Event, jid: string, t: Talk)
    requires Known(q, jid, t) && Possible(q, e) && jid !in q.waitingTaskFns && e.RetryRequested? && e.jid == jid
    ensures Known(Step(q, e), jid, Next(q, e, jid, t))
  {
    RetrySeesGroup(q, jid, e.proc, e.written);
    var p := GetGroup(q, jid);
    assert Known(p, jid, t);
    hide RequestDeliveryRetry, Listens, IsTaskKey, Starts, Deaths, Releases, Retried, TurnText;
    if !HasTurn(t) {
      NoRetryKnown(p, jid, e.proc, e.written, t);
    } else if Listens(SlotOf(q, jid), e.proc) && e.written {
      RetrySendsKnown(p, jid, e.proc, t);
    } else {
      RetryFailsKnown(p, jid, e.proc, e.written, t);
    }
  }

  lemma IdleKnown(q: Queue, k: string, jid: string, t: Talk)
    requires Known(q, jid, t)
    ensures Known(MarkIdle(q, k), jid, if k == jid then t.(idle := true) else t)
    ensures SameTally(q, MarkIdle(q, k), jid)
  {
    SameCounts(q, MarkIdle(q, k), jid);
    hide TurnText, Starts, Deaths, Releases;
  }

  lemma OutputKnown(q: Queue, k: string, jid: string, t: Talk)
    requires Known(q, jid, t)
    ensures Known(NotifyAgentOutput(q, k), jid, if k == jid then t.(pipes := 0, output := true) else t)
    ensures SameTally(q, NotifyAgentOutput(q, k), jid)
  {
    hide TurnText;
    MarkCounts(q, NotifyAgentOutput(q, k), Output(k), jid);
    hide Starts, Deaths, Releases;
  }

  lemma CursorSetKnown(q: Queue, k: string, cursor: string, jid: string, t: Talk)
    requires Known(q, jid, t)
    ensures Known(SetCurrentTurnStartCursor(q, k, cursor), jid,
                  if k == jid then t.(start := Some(cursor), cursors := []) else t)
    ensures SameTally(q, SetCurrentTurnStartCursor(q, k, cursor), jid)
  {
    SameCounts(q, SetCurrentTurnStartCursor(q, k, cursor), jid);
    hide TurnText, Starts, Deaths, Releases;
  }

  lemma DeliveryKnown(q: Queue, k: string, jid: string, t: Talk)
    requires Known(q, jid, t)
    ensures Known(NotifyUserDelivery(q, k), jid, if k == jid then t.(texts := [], start := None, cursors := []) else t)
    ensures SameTally(q, NotifyUserDelivery(q, k), jid)
  {
    assert TurnText([]) == None;
    SameCounts(q, NotifyUserDelivery(q, k), jid);
    hide TurnText, Starts, Deaths, Releases;
  }

  lemma RegisteredKnown(q: Queue, k: string, folder: string, jid: string, t: Talk)
    requires Known(q, jid, t) && !IsTaskKey(jid)
    ensures Known(RegisterProcess(q, k, folder), jid,
                  if k == jid then t.(process := true, folder := if folder != "" then Some(folder) else t.folder)
                  else t)
    ensures SameTally(q, RegisterProcess(q, k, folder), jid)
  {
    SameCounts(q, RegisterProcess(q, k, folder), jid);
    hide TurnText, Starts, Deaths, Releases, IsTaskKey;
  }

  /** The other events that concern a chat's conversation. */
  lemma SaidNext(q: Queue, e: Event, jid: string, t: Talk)
    requires !IsTaskKey(jid)
    requires Known(q, jid, t) && Possible(q, e) && (e.Idle? || e.CursorSet? || e.UserDelivery? || e.AgentOutput?
                                                       || e.Registered?)
    ensures Known(Step(q, e), jid, Next(q, e, jid, t))
  {
    hide Known, Starts, Deaths, Releases, IsTaskKey, MarkIdle, NotifyAgentOutput, SetCurrentTurnStartCursor,
      NotifyUserDelivery, RegisterProcess;
    match e {
      case Idle(k) => IdleKnown(q, k, jid, t);
      case AgentOutput(k) => OutputKnown(q, k, jid, t);
      case CursorSet(k, cursor) => CursorSetKnown(q, k, cursor, jid, t);
      case UserDelivery(k) => DeliveryKnown(q, k, jid, t);
      case Registered(k, folder) => RegisteredKnown(q, k, folder, jid, t);
    }
  }

  lemma OthersNext(q: Queue, e: Event, jid: string, t: Talk)
    requires Known(q, jid, t) && Possible(q, e) && jid !in q.waitingTaskFns && !IsTaskKey(jid)
    requires !e.Idle? && !e.CursorSet? && !e.UserDelivery? && !e.AgentOutput? && !e.Registered?
    requires (e.Sent? || e.RetryRequested?) ==> e.jid != jid
    ensures Known(Step(q, e), jid, Next(q, e, jid, t))
  {
    hide Known, Quietly, IsTaskKey, SendMessage, SettleRun, SettleTask, ProcessExit, EnqueueMessageCheck, EnqueueTask,
      RegisterProcess, NotifyTaskIdle, RequestDeliveryRetry, Starts, Deaths, Releases;
    assert Quietly(q, Step(q, e), jid) by {
      match e {
        case MessageCheck(chat) => EnqueueQuietly(q, chat, jid);
        case TaskDue(chat, taskId, fn) => TaskDueQuietly(q, chat, taskId, fn, jid);
        case RunSettles(chat, outcome, proc) => SettlesQuietly(q, chat, outcome, proc, jid);
        case TaskSettles(key) => TaskSettlesQuietly(q, key, jid);
        case Exited(key, staleFiles) => ExitQuietly(q, key, staleFiles, jid);
        case TaskIdle(chat, taskId) => TaskIdleQuietly(q, chat, taskId, jid);
        case Sent(chat, text, cursor, proc, written) => SentQuietly(q, chat, text, cursor, proc, written, jid);
        case RetryRequested(chat, proc, written) => RetryQuietly(q, chat, proc, written, jid);
        case _ => PendingQuietly(q, e, jid);
      }
    }
    QuietlyKnown(q, Step(q, e), jid, t);
  }

  lemma TaskSettlesQuietly(q: Queue, key: string, jid: string)
    requires key in q.slots && IsTaskKey(key) && !IsTaskKey(jid) && jid !in q.waitingTaskFns
    ensures Quietly(q, SettleTask(q, key), jid)
  {
    hide IsTaskKey, Quietly, DrainWaiting;
    DropQuietly(q, key, jid);
    DrainQuietly(DropTask(q, key), jid);
    QuietlyOn(q, DropTask(q, key), SettleTask(q, key), jid);
  }

  /** Another chat's retry. */
  lemma RetryQuietly(q: Queue, k: string, proc: ProcessView, written: bool, jid: string)
    requires k != jid && jid !in q.waitingTaskFns
    ensures Quietly(q, RequestDeliveryRetry(q, k, proc, written).0, jid)
  {
    hide Quietly, SendMessage;
    var p := GetGroup(q, k);
    GroupQuietly(q, k, jid);
    var s := p.slots[k];
    if HasRetryTurn(s) {
      var taken := SetSlot(p, k, TurnTaken(s));
      OtherQuietly(p, taken, jid);
      QuietlyOn(q, p, taken, jid);
      var (cursor, text) := (s.currentTurnStartCursor.value, s.currentTurnText.value);
      SentQuietly(taken, k, text, cursor, proc, written, jid);
      var r := SendMessage(taken, k, text, cursor, proc, written).0;
      QuietlyOn(q, taken, r, jid);
      GroupQuietly(r, k, jid);
      QuietlyOn(q, r, GetGroup(r, k), jid);
      OtherQuietly(GetGroup(r, k), TurnBack(GetGroup(r, k), k, cursor, text), jid);
      QuietlyOn(q, GetGroup(r, k), TurnBack(GetGroup(r, k), k, cursor, text), jid);
    }
  }

  lemma StepKnown(q: Queue, e: Event, jid: string, t: Talk)
    requires Known(q, jid, t) && Possible(q, e) && !IsTaskKey(jid) && CursorsOk(q)
    ensures Known(Step(q, e), jid, Next(q, e, jid, t))
  {
    assert jid !in q.waitingTaskFns;
    hide *;
    if e.Sent? && e.jid == jid {
      SentNext(q, e, jid, t);
    } else if e.RetryRequested? && e.jid == jid {
      RetriedNext(q, e, jid, t);
    } else if e.Idle? || e.CursorSet? || e.UserDelivery? || e.AgentOutput? || e.Registered? {
      SaidNext(q, e, jid, t);
    } else {
      OthersNext(q, e, jid, t);
    }
  }

  lemma {:induction false} RunKnown(q: Queue, events: seq<Event>, jid: string, t: Talk)
    requires Known(q, jid, t) && PossibleRun(q, events) && !IsTaskKey(jid) && CursorsOk(q)
    ensures Known(Run(q, events), jid, TalkOf(q, events, jid, t))
    decreases |events|
  {
    hide Known, CursorsOk, Step, Possible, Next, IsTaskKey;
    if events == [] {
    } else {
      StepKnown(q, events[0], jid, t);
      StepCursors(q, events[0]);
      RunKnown(Step(q, events[0]), events[1..], jid, Next(q, events[0], jid, t));
    }
  }

  /** What has been said in a run from an empty queue. */
  function TalkAfter(cap: nat, events: seq<Event>, jid: string): Talk
    requires PossibleRun(NewQueue(cap), events)
  {
    TalkOf(NewQueue(cap), events, jid, SILENCE)
  }

  lemma KnownAfter(cap: nat, events: seq<Event>, jid: string)
    requires PossibleRun(NewQueue(cap), events) && !IsTaskKey(jid)
    ensures Known(Run(NewQueue(cap), events), jid, TalkAfter(cap, events, jid))
  {
    assert Known(NewQueue(cap), jid, SILENCE);
    hide Known, CursorsOk, IsTaskKey;
    NewQueueCursors(cap);
    RunKnown(NewQueue(cap), events, jid, SILENCE);
  }

  /** In every run, a chat's slot retains the texts piped since the user last got something, each on a line, and the
      cursor that was set since, or if none was or it is empty, the first non-empty one piped. Retries change neither,
      except that they lose a start cursor that is empty. */
  lemma TurnIsRetained(cap: nat, events: seq<Event>, jid: string)
    requires PossibleRun(NewQueue(cap), events) && !IsTaskKey(jid) && jid in Run(NewQueue(cap), events).slots
    ensures var (s, t) := (Run(NewQueue(cap), events).slots[jid], TalkAfter(cap, events, jid));
            s.currentTurnText == TurnText(t.texts) && s.currentTurnStartCursor == StartCursor(t)
  {
    hide TurnText, IsTaskKey;
    KnownAfter(cap, events, jid);
  }

  /** The turn number counts the chat's runs and the messages that went out to them, retries included. */
  lemma TurnNumberCounts(cap: nat, events: seq<Event>, jid: string)
    requires PossibleRun(NewQueue(cap), events) && !IsTaskKey(jid) && jid in Run(NewQueue(cap), events).slots
    ensures var q := Run(NewQueue(cap), events);
            q.slots[jid].userTurnSeq == Starts(q, jid) + TalkAfter(cap, events, jid).told
  {
    hide TurnText, IsTaskKey, Starts;
    KnownAfter(cap, events, jid);
  }

  /** A message goes out if and only if the agent listens and the write succeeds, with its own text and cursor. */
  lemma SentGoesOutExactly(q: Queue, jid: string, text: string, cursor: string, proc: ProcessView, written: bool)
    ensures var (q', sent) := SendMessage(q, jid, text, cursor, proc, written);
            && (sent <==> Listens(SlotOf(q, jid), proc) && written)
            && (sent ==> q'.marks == q.marks + [Piped(jid, cursor, text)])
  {}

  /** A retry sends the whole turn out again, all its texts, with its start cursor. */
  lemma RetrySendsTheTurn(cap: nat, events: seq<Event>, jid: string, proc: ProcessView)
    requires PossibleRun(NewQueue(cap), events) && !IsTaskKey(jid)
    requires HasTurn(TalkAfter(cap, events, jid)) && Listens(SlotOf(Run(NewQueue(cap), events), jid), proc)
    ensures var (q, t) := (Run(NewQueue(cap), events), TalkAfter(cap, events, jid));
            Step(q, RetryRequested(jid, proc, true)).marks
            == q.marks + [Piped(jid, StartCursor(t).value, TurnText(t.texts).value)]
  {
    hide TurnText, IsTaskKey, Starts, TalkOf, Run, PossibleRun;
    KnownAfter(cap, events, jid);
    hide PipeInto;
  }

  /** A slot knows of its process and its folder what was registered since it was last released, and of its agent
      whether it has said that it waits, and has been told nothing since. */
  lemma ProcessIsKnown(cap: nat, events: seq<Event>, jid: string)
    requires PossibleRun(NewQueue(cap), events) && !IsTaskKey(jid) && jid in Run(NewQueue(cap), events).slots
    ensures var (s, t) := (Run(NewQueue(cap), events).slots[jid], TalkAfter(cap, events, jid));
            s.hasProcess == t.process && s.groupFolder == t.folder && s.idleWaiting == t.idle
  {
    hide TurnText, IsTaskKey, Starts;
    KnownAfter(cap, events, jid);
  }

  /** An agent is recycled exactly if it is active, waits, has a process, and that is alive; its messages are then to be
      fetched anew, and nothing else changes. */
  lemma RecycledExactly(cap: nat, events: seq<Event>, jid: string, proc: ProcessView)
    requires PossibleRun(NewQueue(cap), events) && !IsTaskKey(jid) && jid in Run(NewQueue(cap), events).slots
    ensures var (q, t) := (Run(NewQueue(cap), events), TalkAfter(cap, events, jid));
            var recycled := q.slots[jid].active && t.idle && t.process && proc.Alive();
            && RecycleIdle(q, jid, proc).1 == recycled
            && RecycleIdle(q, jid, proc).0.slots[jid] == q.slots[jid].(
                 pendingMessages := q.slots[jid].pendingMessages || recycled)
            && forall k :: k != jid && k in q.slots ==> RecycleIdle(q, jid, proc).0.slots[k] == q.slots[k]
  {
    ProcessIsKnown(cap, events, jid);
    hide TalkAfter, Run, PossibleRun, IsTaskKey;
  }

  // ------------------------------------------------------------------ what an exit does

  lemma {:induction false} DrainKeepsReleases(q: Queue)
    ensures DrainWaiting(q).releases == q.releases
    decreases |q.waitingSlots|
  {
    if q.waitingSlots == [] || q.activeCount >= q.cap {
    } else {
      DrainKeepsReleases(StartNextWaiting(q));
    }
  }

  lemma DrainGroupKeepsReleases(q: Queue, jid: string, proc: ProcessView)
    ensures DrainGroup(q, jid, proc).releases == q.releases
  {
    DrainKeepsReleases(GetGroup(q, jid));
  }

  lemma ExitReleases(q: Queue, key: string, staleFiles: bool)
    requires key in q.slots
    ensures ProcessExit(q, key, staleFiles).releases
         == q.releases + if ReleasesOnExit(q.slots[key])
                         then [Release(key, q.slots[key].activation, ByExitHandler)] else []
  {
    hide DrainGroup;
    var s := q.slots[key];
    if ReleasesOnExit(s) {
      var s' := if s.groupFolder.Some? && staleFiles then s.(pendingMessages := true) else s;
      var released := ReleaseSlot(SetSlot(q, key, s'), key, ByExitHandler);
      DrainGroupKeepsReleases(released, s.chatJid, ProcessView(true, false));
    }
  }

  /** In every run: the exit of an active chat's process releases its slot if and only if the agent has been heard of
      since its run started, or has been told something it has not answered. (If not, the run itself will release.) */
  lemma ExitReleasesExactly(cap: nat, events: seq<Event>, jid: string, staleFiles: bool)
    requires PossibleRun(NewQueue(cap), events) && !IsTaskKey(jid) && jid in Run(NewQueue(cap), events).slots
    ensures var (q, t) := (Run(NewQueue(cap), events), TalkAfter(cap, events, jid));
            Step(q, Exited(jid, staleFiles)).releases
            == q.releases + if q.slots[jid].active && (t.idle || t.output || t.pipes > 0)
                            then [Release(jid, q.slots[jid].activation, ByExitHandler)] else []
  {
    var q := Run(NewQueue(cap), events);
    ExitReleases(q, jid, staleFiles);
    hide TurnText, IsTaskKey, Starts, ProcessExit;
    KnownAfter(cap, events, jid);
  }

  /** In every run: the exit of an active chat's process reports a cursor if and only if there has been no output since
      the run started and something was piped; it reports without one if and only if there was output and the agent has
      not said since that it waits. So what is piped after the first output of a run is not reported. */
  lemma ExitReportsExactly(cap: nat, events: seq<Event>, jid: string)
    requires PossibleRun(NewQueue(cap), events) && !IsTaskKey(jid) && jid in Run(NewQueue(cap), events).slots
    ensures var (q, t) := (Run(NewQueue(cap), events), TalkAfter(cap, events, jid));
            ReportOnExit(q.slots[jid])
            == if q.slots[jid].active && !t.output && t.pipes > 0
               then Called(First(CursorsSinceReset(q.marks, jid, true)))
               else if q.slots[jid].active && t.output && !t.idle then Called(None)
               else NotCalled
  {
    hide TurnText, IsTaskKey, Starts, First, CursorsSinceReset;
    KnownAfter(cap, events, jid);
    RollbackIsFirstPiped(cap, events, jid);
  }

  const ALIVE := ProcessView(false, false)

  /** The chat "j" runs, has answered, and is piped a second message. */
  function SecondMessage(): Queue {
    var q := RegisterProcess(EnqueueMessageCheck(NewQueue(1), "j"), "j", "f");
    SendMessage(NotifyAgentOutput(q, "j"), "j", "t", "c", ALIVE, true).0
  }

  lemma SecondMessageState()
    ensures var q := SecondMessage();
            && "j" in q.slots && q.slots["j"].inFlightCursorRollback == Some("c")
            && ReportOnExit(q.slots["j"]) == Called(None)
  {
    assert |"j"| == 1;
    var q1 := EnqueueMessageCheck(NewQueue(1), "j");
    assert "j" in q1.slots && q1.slots["j"].active;
    var q2 := RegisterProcess(q1, "j", "f");
    assert "j" in q2.slots && Sendable(q2.slots["j"]);
    var q3 := NotifyAgentOutput(q2, "j");
    assert "j" in q3.slots && Sendable(q3.slots["j"]) && q3.slots["j"].inFlightCursorRollback == None;
  }

  /** So a message that follows an answer is lost when the agent dies over it: its cursor is not reported. */
  lemma SecondMessageUnreported(events: seq<Event>)
    requires events == [MessageCheck("j"), Registered("j", "f"), AgentOutput("j"), Sent("j", "t", "c", ALIVE, true)]
    ensures LegalRun(NewQueue(1), events)
    ensures var q := Exec(NewQueue(1), events);
            && "j" in q.slots && q.slots["j"].inFlightCursorRollback == Some("c")
            && ReportOnExit(q.slots["j"]) == Called(None)
  {
    var e0, e1, e2, e3 := events[0], events[1], events[2], events[3];
    assert |"j"| == 1 && !IsTaskKey("j");
    SecondMessageState();
    hide IsTaskKey, EnqueueMessageCheck, RegisterProcess, NotifyAgentOutput, SendMessage, LegalRun, Exec;
    var q1 := EnqueueMessageCheck(NewQueue(1), "j");
    var q2 := RegisterProcess(q1, "j", "f");
    var q3 := NotifyAgentOutput(q2, "j");
    NothingMore(SecondMessage());
    NextIs(q3, e3, SecondMessage(), []);
    NextIs(q2, e2, q3, [e3] + []);
    NextIs(q1, e1, q2, [e2] + ([e3] + []));
    NextIs(NewQueue(1), e0, q1, [e1] + ([e2] + ([e3] + [])));
    assert events == [e0] + ([e1] + ([e2] + ([e3] + [])));
  }

  lemma NothingMore(q: Queue)
    ensures LegalRun(q, []) && Exec(q, []) == q
  {}

  lemma SettleReleases(q: Queue, jid: string, outcome: RunOutcome, proc: ProcessView)
    requires jid in q.slots
    ensures var s := q.slots[jid];
            SettleRun(q, jid, outcome, proc).releases
            == q.releases + if s.hasProcess && proc.Alive() && s.idleWaiting then []
                            else [Release(jid, s.activation, ByRunFinally)]
  {
    hide DrainGroup;
    var p := SetSlot(q, jid, AfterOutcome(q.slots[jid], outcome)).(pendingRuns := q.pendingRuns - multiset{jid});
    DrainGroupKeepsReleases(p, jid, proc);
    DrainGroupKeepsReleases(ReleaseSlot(p, jid, ByRunFinally), jid, proc);
  }

  /** In every run: when a chat's run settles, its slot is kept if and only if its agent waits and has a process that is
      alive. */
  lemma KeptExactly(cap: nat, events: seq<Event>, jid: string, outcome: RunOutcome, proc: ProcessView)
    requires PossibleRun(NewQueue(cap), events) && Possible(Run(NewQueue(cap), events), RunSettles(jid, outcome, proc))
    ensures var (q, t) := (Run(NewQueue(cap), events), TalkAfter(cap, events, jid));
            Step(q, RunSettles(jid, outcome, proc)).releases
            == q.releases + if t.process && proc.Alive() && t.idle then []
                            else [Release(jid, q.slots[jid].activation, ByRunFinally)]
  {
    SettleReleases(Run(NewQueue(cap), events), jid, outcome, proc);
    ProcessIsKnown(cap, events, jid);
    hide TalkAfter, Run, PossibleRun, IsTaskKey, SettleRun;
  }
}
