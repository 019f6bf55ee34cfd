/** The flash edit coalescer as steps on values: enqueue calls, settlements of edits and of orphan deletions,
    and the two ways of forgetting slots, in any order. */
module CoalescerModel {
  import opened Options

  datatype Frame = Frame(text: string, opts: Option<string>)

  /** Where a slot's worker is: none running, or suspended in editMessage or deleteMessage. */
  datatype Phase = Idle | Editing(snapshot: Frame) | Deleting

  /** An edit, and which of the slot's enqueues it carries. */
  datatype Edit = Edit(frame: Frame, at: nat)

  /** `latest` and `phase` are the source's slot; the rest records its history. */
  datatype Slot = Slot(
    msgId: string,
    latest: Frame,
    phase: Phase,
    enqueued: seq<Frame>,
    edits: seq<Edit>,
    settled: nat,
    orphaned: bool
  )

  /** Slots are named by their place in `slots`, in order of creation; `queue` holds those reachable by message id. */
  datatype Coalescer = Coalescer(canDelete: bool, queue: map<string, nat>, slots: seq<Slot>, orphanCalls: nat)

  function NewCoalescer(canDelete: bool): Coalescer {
    Coalescer(canDelete, map[], [], 0)
  }

  function NewSlot(msgId: string, frame: Frame): Slot {
    Slot(msgId, frame, Idle, [frame], [], 0, false)
  }

  /** The top of the worker's loop, up to the await of editMessage. */
  function StartEdit(s: Slot): Slot
    requires s.enqueued != []
  {
    s.(phase := Editing(s.latest), edits := s.edits + [Edit(s.latest, |s.enqueued| - 1)])
  }

  function Refresh(s: Slot, frame: Frame): (r: Slot)
    ensures r.enqueued != []
  {
    s.(latest := frame, enqueued := s.enqueued + [frame])
  }

  function EnqueueInto(s: Slot, frame: Frame): Slot {
    var s := Refresh(s, frame);
    if s.phase.Idle? then StartEdit(s) else s
  }

  function Enqueue(c: Coalescer, msgId: string, frame: Frame): Coalescer {
    if msgId in c.queue then
      if c.queue[msgId] < |c.slots| then
        c.(slots := c.slots[c.queue[msgId] := EnqueueInto(c.slots[c.queue[msgId]], frame)])
      else c
    else
      c.(queue := c.queue[msgId := |c.slots|], slots := c.slots + [StartEdit(NewSlot(msgId, frame))])
  }

  /** editMessage returned no other id, returned the id of a new message, or threw. */
  datatype EditOutcome = Kept | Orphan | Threw

  /** After an edit without an orphan: loop while newer text has arrived. */
  function NextRound(s: Slot): Slot
    requires s.phase.Editing? && s.enqueued != []
  {
    if s.latest.text == s.phase.snapshot.text then s.(phase := Idle) else StartEdit(s)
  }

  predicate AwaitsEdit(c: Coalescer, id: nat) {
    id < |c.slots| && c.slots[id].phase.Editing? && c.slots[id].enqueued != []
  }

  predicate AwaitsDelete(c: Coalescer, id: nat) {
    id < |c.slots| && c.slots[id].phase.Deleting?
  }

  function EditSettles(c: Coalescer, id: nat, outcome: EditOutcome): Coalescer
    requires AwaitsEdit(c, id)
  {
    var s := c.slots[id].(settled := c.slots[id].settled + 1);
    if outcome.Orphan? then
      var found := c.(slots := c.slots[id := s.(phase := Deleting)]);
      if c.canDelete then found else FinishOrphan(found, id)
    else
      c.(slots := c.slots[id := NextRound(s)])
  }

  /** The worker ends: queue.delete(msgId), then onOrphan(). */
  function FinishOrphan(c: Coalescer, id: nat): Coalescer
    requires id < |c.slots|
  {
    c.(slots := c.slots[id := c.slots[id].(phase := Idle, orphaned := true)],
       queue := c.queue - {c.slots[id].msgId},
       orphanCalls := c.orphanCalls + 1)
  }

  datatype Event =
    | Enqueued(msgId: string, frame: Frame)
    | EditSettled(id: nat, outcome: EditOutcome)
    | DeleteSettled(id: nat)
    | Forgotten(msgId: string)  // the last line of drain
    | Cleared

  predicate Possible(c: Coalescer, e: Event) {
    match e
    case EditSettled(id, _) => AwaitsEdit(c, id)
    case DeleteSettled(id) => AwaitsDelete(c, id)
    case _ => true
  }

  function Step(c: Coalescer, e: Event): Coalescer
    requires Possible(c, e)
  {
    match e
    case Enqueued(msgId, frame) => Enqueue(c, msgId, frame)
    case EditSettled(id, outcome) => EditSettles(c, id, outcome)
    case DeleteSettled(id) => FinishOrphan(c, id)
    case Forgotten(msgId) => c.(queue := c.queue - {msgId})
    case Cleared => c.(queue := map[])
  }

  predicate LegalRun(c: Coalescer, events: seq<Event>)
    decreases |events|
  {
    events == [] || (Possible(c, events[0]) && LegalRun(Step(c, events[0]), events[1..]))
  }

  function Exec(c: Coalescer, events: seq<Event>): Coalescer
    requires LegalRun(c, events)
    decreases |events|
  {
    if events == [] then c else Exec(Step(c, events[0]), events[1..])
  }
}
