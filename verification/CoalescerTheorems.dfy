/** What every run of the coalescer keeps. */
module CoalescerTheorems {
  import opened Options
  import opened CoalescerModel

  function Last<T>(s: seq<T>): T
    requires s != []
  {
    s[|s| - 1]
  }

  /** Each edit carries one of the enqueues, and later edits carry later enqueues. */
  ghost predicate HistoryOk(s: Slot) {
    && s.enqueued != [] && s.edits != []
    && s.latest == Last(s.enqueued)
    && (forall i :: 0 <= i < |s.edits| ==>
          s.edits[i].at < |s.enqueued| && s.edits[i].frame == s.enqueued[s.edits[i].at])
    && (forall i, j :: 0 <= i < j < |s.edits| ==> s.edits[i].at < s.edits[j].at)
  }

  ghost predicate SlotOk(s: Slot) {
    && HistoryOk(s)
    && |s.edits| == s.settled + (if s.phase.Editing? then 1 else 0)
    && (s.phase.Editing? ==> s.phase.snapshot == Last(s.edits).frame)
    && (s.phase.Idle? && !s.orphaned ==> Last(s.edits).frame.text == s.latest.text)
    && (s.orphaned ==> s.phase.Idle?)
  }

  function Orphans(slots: seq<Slot>): nat {
    if slots == [] then 0 else (if slots[0].orphaned then 1 else 0) + Orphans(slots[1..])
  }

  /** A reachable slot goes by its own message id and is not an orphan's. */
  ghost predicate QueueOk(c: Coalescer) {
    forall m :: m in c.queue ==>
      c.queue[m] < |c.slots| && c.slots[c.queue[m]].msgId == m && !c.slots[c.queue[m]].orphaned
  }

  ghost predicate Inv(c: Coalescer) {
    && (forall id :: 0 <= id < |c.slots| ==> SlotOk(c.slots[id]))
    && QueueOk(c)
    && c.orphanCalls == Orphans(c.slots)
  }

  lemma {:induction false} OrphansUpdate(slots: seq<Slot>, id: nat, s: Slot)
    requires id < |slots|
    ensures Orphans(slots[id := s]) ==
            Orphans(slots) - (if slots[id].orphaned then 1 else 0) + (if s.orphaned then 1 else 0)
  {
    if id > 0 {
      assert slots[id := s][1..] == slots[1..][id - 1 := s];
      OrphansUpdate(slots[1..], id - 1, s);
    } else {
      assert slots[id := s][1..] == slots[1..];
    }
  }

  lemma {:induction false} OrphansAppend(slots: seq<Slot>, s: Slot)
    ensures Orphans(slots + [s]) == Orphans(slots) + (if s.orphaned then 1 else 0)
  {
    if slots == [] {
    } else {
      assert (slots + [s])[1..] == slots[1..] + [s];
      OrphansAppend(slots[1..], s);
    }
  }

  /** A new edit starts only when an enqueue has arrived since the last one was taken. */
  lemma StartEditOk(s: Slot)
    requires s.enqueued != [] && s.latest == Last(s.enqueued) && |s.edits| == s.settled && !s.orphaned
    requires s.edits != [] ==> HistoryOk(s) && Last(s.edits).at < |s.enqueued| - 1
    ensures SlotOk(StartEdit(s))
  {}

  lemma EnqueueIntoOk(s: Slot, frame: Frame)
    requires SlotOk(s) && !s.orphaned
    ensures SlotOk(EnqueueInto(s, frame)) && !EnqueueInto(s, frame).orphaned
  {}

  lemma NextRoundOk(s: Slot)
    requires SlotOk(s) && s.phase.Editing?
    ensures SlotOk(NextRound(s.(settled := s.settled + 1)))
    ensures !NextRound(s.(settled := s.settled + 1)).orphaned
  {}

  lemma EnqueueInv(c: Coalescer, msgId: string, frame: Frame)
    requires Inv(c)
    ensures Inv(Enqueue(c, msgId, frame))
  {
    if msgId in c.queue {
      EnqueueIntoOk(c.slots[c.queue[msgId]], frame);
      OrphansUpdate(c.slots, c.queue[msgId], EnqueueInto(c.slots[c.queue[msgId]], frame));
    } else {
      StartEditOk(NewSlot(msgId, frame));
      OrphansAppend(c.slots, StartEdit(NewSlot(msgId, frame)));
    }
  }

  /** One slot changes to another good one with the same message id and, if orphaned, is out of reach. */
  lemma SlotChangeInv(c: Coalescer, id: nat, s: Slot)
    requires Inv(c) && id < |c.slots| && SlotOk(s) && s.msgId == c.slots[id].msgId
    requires !c.slots[id].orphaned && !s.orphaned
    ensures Inv(c.(slots := c.slots[id := s]))
  {
    hide SlotOk;
    OrphansUpdate(c.slots, id, s);
  }

  lemma DeleteSettledInv(c: Coalescer, id: nat)
    requires Inv(c) && AwaitsDelete(c, id)
    ensures Inv(FinishOrphan(c, id))
  {
    assert SlotOk(c.slots[id]);
    OrphansUpdate(c.slots, id, FinishOrphan(c, id).slots[id]);
  }

  lemma OrphanFoundOk(s: Slot)
    requires SlotOk(s) && s.phase.Editing?
    ensures SlotOk(s.(settled := s.settled + 1, phase := Deleting)) && !s.orphaned
  {}

  lemma EditSettlesInv(c: Coalescer, id: nat, outcome: EditOutcome)
    requires Inv(c) && AwaitsEdit(c, id)
    ensures Inv(EditSettles(c, id, outcome))
  {
    hide SlotOk;
    var s := c.slots[id];
    OrphanFoundOk(s);
    if outcome.Orphan? {
      var s' := s.(settled := s.settled + 1, phase := Deleting);
      SlotChangeInv(c, id, s');
      hide Inv;
      if !c.canDelete {
        DeleteSettledInv(c.(slots := c.slots[id := s']), id);
      }
    } else {
      NextRoundOk(s);
      NextRoundId(s.(settled := s.settled + 1));
      hide Inv, NextRound;
      SlotChangeInv(c, id, NextRound(s.(settled := s.settled + 1)));
    }
  }

  lemma NextRoundId(s: Slot)
    requires s.phase.Editing? && s.enqueued != []
    ensures NextRound(s).msgId == s.msgId
  {}

  lemma StepInv(c: Coalescer, e: Event)
    requires Inv(c) && Possible(c, e)
    ensures Inv(Step(c, e))
  {
    hide SlotOk;
    match e {
      case Enqueued(msgId, frame) => EnqueueInv(c, msgId, frame);
      case EditSettled(id, outcome) => EditSettlesInv(c, id, outcome);
      case DeleteSettled(id) => DeleteSettledInv(c, id);
      case _ =>
    }
  }

  lemma GoodStepInv(c: Coalescer, e: Event)
    requires Possible(c, e)
    ensures Inv(c) ==> Inv(Step(c, e))
  {
    hide Inv;
    if Inv(c) {
      StepInv(c, e);
    }
  }

  lemma {:induction false} RunInv(c: Coalescer, events: seq<Event>)
    requires Inv(c) && LegalRun(c, events)
    ensures Inv(Exec(c, events))
    decreases |events|
  {
    if events == [] {
    } else {
      StepInv(c, events[0]);
      RunInv(Step(c, events[0]), events[1..]);
    }
  }

  function After(canDelete: bool, events: seq<Event>): Coalescer
    requires LegalRun(NewCoalescer(canDelete), events)
  {
    Exec(NewCoalescer(canDelete), events)
  }

  // ------------------------------------------------------------------ what a reader is told

  function Frames(edits: seq<Edit>): seq<Frame> {
    seq(|edits|, i requires 0 <= i < |edits| => edits[i].frame)
  }

  /** xs is obtained from ys by leaving elements out. */
  ghost predicate Subsequence<T(!new)>(xs: seq<T>, ys: seq<T>) {
    exists at: seq<nat> :: Picks(xs, ys, at)
  }

  ghost predicate Picks<T>(xs: seq<T>, ys: seq<T>, at: seq<nat>) {
    && |at| == |xs|
    && (forall i :: 0 <= i < |at| ==> at[i] < |ys| && ys[at[i]] == xs[i])
    && (forall i, j :: 0 <= i < j < |at| ==> at[i] < at[j])
  }

  lemma {:induction false} PicksNoLonger<T>(xs: seq<T>, ys: seq<T>, at: seq<nat>)
    requires Picks(xs, ys, at)
    ensures |xs| <= |ys|
    decreases |xs|
  {
    if xs == [] {
    } else {
      var n := |xs| - 1;
      assert Picks(xs[..n], ys[..at[n]], at[..n]);
      PicksNoLonger(xs[..n], ys[..at[n]], at[..n]);
    }
  }

  /** On every slot, in every run: one edit outstanding at most; the frames sent are a subsequence of those
      enqueued, so no more edits start than there were enqueues; and when the worker is idle without an orphan,
      the last text sent is the latest text enqueued. */
  lemma LatestWins(canDelete: bool, events: seq<Event>, id: nat)
    requires LegalRun(NewCoalescer(canDelete), events) && id < |After(canDelete, events).slots|
    ensures var s := After(canDelete, events).slots[id];
            && 0 <= |s.edits| - s.settled <= 1
            && (|s.edits| - s.settled == 1 <==> s.phase.Editing?)
            && Subsequence(Frames(s.edits), s.enqueued)
            && |s.edits| <= |s.enqueued|
            && s.enqueued != [] && s.edits != [] && s.latest == Last(s.enqueued)
            && (s.phase.Idle? && !s.orphaned ==> Last(s.edits).frame.text == Last(s.enqueued).text)
  {
    RunInv(NewCoalescer(canDelete), events);
    var s := After(canDelete, events).slots[id];
    assert SlotOk(s);
    var at := seq(|s.edits|, i requires 0 <= i < |s.edits| => s.edits[i].at);
    assert Picks(Frames(s.edits), s.enqueued, at);
    PicksNoLonger(Frames(s.edits), s.enqueued, at);
  }

  predicate FindsOrphan(e: Event) {
    e.EditSettled? && e.outcome.Orphan?
  }

  /** How many settlements of the run found an orphan, and how many of those on one slot. */
  function OrphansFound(events: seq<Event>): nat {
    if events == [] then 0 else (if FindsOrphan(events[0]) then 1 else 0) + OrphansFound(events[1..])
  }

  function OrphansFoundOn(events: seq<Event>, id: nat): nat {
    if events == [] then 0
    else (if FindsOrphan(events[0]) && events[0].id == id then 1 else 0) + OrphansFoundOn(events[1..], id)
  }

  /** Slots whose orphan is being deleted. */
  function BeingDeleted(slots: seq<Slot>): nat {
    if slots == [] then 0 else (if slots[0].phase.Deleting? then 1 else 0) + BeingDeleted(slots[1..])
  }

  lemma {:induction false} BeingDeletedUpdate(slots: seq<Slot>, id: nat, s: Slot)
    requires id < |slots|
    ensures BeingDeleted(slots[id := s]) ==
            BeingDeleted(slots) - (if slots[id].phase.Deleting? then 1 else 0) + (if s.phase.Deleting? then 1 else 0)
  {
    if id == 0 {
      assert slots[id := s][1..] == slots[1..];
    } else {
      assert slots[id := s][1..] == slots[1..][id - 1 := s];
      BeingDeletedUpdate(slots[1..], id - 1, s);
    }
  }

  lemma {:induction false} BeingDeletedAppend(slots: seq<Slot>, s: Slot)
    ensures BeingDeleted(slots + [s]) == BeingDeleted(slots) + (if s.phase.Deleting? then 1 else 0)
  {
    if slots == [] {
    } else {
      assert (slots + [s])[1..] == slots[1..] + [s];
      BeingDeletedAppend(slots[1..], s);
    }
  }

  /** Its orphan has been found. */
  predicate Found(c: Coalescer, id: nat) {
    id < |c.slots| && (c.slots[id].phase.Deleting? || c.slots[id].orphaned)
  }

  lemma StepCountsOrphans(c: Coalescer, e: Event, id: nat)
    requires Inv(c) && Possible(c, e)
    ensures var c' := Step(c, e);
            c'.orphanCalls + BeingDeleted(c'.slots)
            == c.orphanCalls + BeingDeleted(c.slots) + (if FindsOrphan(e) then 1 else 0)
    ensures Found(Step(c, e), id) <==> Found(c, id) || (FindsOrphan(e) && e.id == id)
    ensures FindsOrphan(e) && e.id == id ==> !Found(c, id)
  {
    StepCountsDeletions(c, e);
    StepFindsOrphan(c, e, id);
  }

  lemma StepFindsOrphan(c: Coalescer, e: Event, id: nat)
    requires Inv(c) && Possible(c, e)
    ensures Found(Step(c, e), id) <==> Found(c, id) || (FindsOrphan(e) && e.id == id)
    ensures FindsOrphan(e) && e.id == id ==> !Found(c, id)
  {
    if e.EditSettled? {
      assert SlotOk(c.slots[e.id]) && (id < |c.slots| ==> SlotOk(c.slots[id]));
      hide Inv, Step;
      EditFindsOrphan(c, e, id);
    } else if e.Enqueued? {
      assert QueueOk(c);
      hide Inv, SlotOk, HistoryOk;
    } else {
      assert e.DeleteSettled? ==> SlotOk(c.slots[e.id]);
      hide Inv, HistoryOk;
    }
  }

  lemma EditFindsOrphan(c: Coalescer, e: Event, id: nat)
    requires Possible(c, e) && e.EditSettled? && SlotOk(c.slots[e.id])
    ensures Found(Step(c, e), id) <==> Found(c, id) || (FindsOrphan(e) && e.id == id)
    ensures FindsOrphan(e) && e.id == id ==> !Found(c, id)
  {
    hide HistoryOk;
  }

  lemma StepCountsDeletions(c: Coalescer, e: Event)
    requires Inv(c) && Possible(c, e)
    ensures var c' := Step(c, e);
            c'.orphanCalls + BeingDeleted(c'.slots)
            == c.orphanCalls + BeingDeleted(c.slots) + (if FindsOrphan(e) then 1 else 0)
  {
    hide HistoryOk, SlotOk;
    match e {
      case Enqueued(msgId, frame) =>
        if msgId in c.queue {
          BeingDeletedUpdate(c.slots, c.queue[msgId], EnqueueInto(c.slots[c.queue[msgId]], frame));
        } else {
          BeingDeletedAppend(c.slots, StartEdit(NewSlot(msgId, frame)));
        }
      case EditSettled(id, outcome) =>
        var s := c.slots[id].(settled := c.slots[id].settled + 1);
        if outcome.Orphan? {
          var found := c.slots[id := s.(phase := Deleting)];
          BeingDeletedUpdate(c.slots, id, s.(phase := Deleting));
          BeingDeletedUpdate(found, id, found[id].(phase := Idle, orphaned := true));
        } else {
          BeingDeletedUpdate(c.slots, id, NextRound(s));
        }
      case DeleteSettled(id) =>
        BeingDeletedUpdate(c.slots, id, c.slots[id].(phase := Idle, orphaned := true));
      case _ =>
    }
  }

  lemma {:induction false} RunCountsOrphans(c: Coalescer, events: seq<Event>, id: nat)
    requires Inv(c) && LegalRun(c, events)
    ensures var c' := Exec(c, events);
            c'.orphanCalls + BeingDeleted(c'.slots) == c.orphanCalls + BeingDeleted(c.slots) + OrphansFound(events)
    ensures (if Found(Exec(c, events), id) then 1 else 0)
         == (if Found(c, id) then 1 else 0) + OrphansFoundOn(events, id)
    decreases |events|
  {
    hide Inv, Possible, Step, Found, FindsOrphan;
    if events == [] {
    } else {
      StepCountsOrphans(c, events[0], id);
      StepInv(c, events[0]);
      RunCountsOrphans(Step(c, events[0]), events[1..], id);
    }
  }

  /** In every run, every settlement that found an orphan has led to one onOrphan call, or its orphan is still being
      deleted; and no slot has more than one such settlement. */
  lemma OrphanReportedOnce(canDelete: bool, events: seq<Event>, id: nat)
    requires LegalRun(NewCoalescer(canDelete), events)
    ensures var c := After(canDelete, events);
            && OrphansFound(events) == c.orphanCalls + BeingDeleted(c.slots)
            && OrphansFoundOn(events, id) == if Found(c, id) then 1 else 0
  {
    RunCountsOrphans(NewCoalescer(canDelete), events, id);
  }

  /** An orphan ends the worker at once and its slot for good: the settlement that finds it starts no edit, none
      starts while the orphan is deleted, and afterwards no step changes the slot. */
  lemma OrphanEndsSlot(c: Coalescer, e: Event, id: nat)
    requires Inv(c) && Possible(c, e) && id < |c.slots|
    ensures id < |Step(c, e).slots|
    ensures e == EditSettled(id, Orphan) ==>
              Step(c, e).slots[id].edits == c.slots[id].edits
              && (Step(c, e).slots[id].orphaned || Step(c, e).slots[id].phase.Deleting?)
    ensures c.slots[id].phase.Deleting? ==>
              Step(c, e).slots[id].edits == c.slots[id].edits
              && (Step(c, e).slots[id].orphaned || Step(c, e).slots[id].phase.Deleting?)
    ensures c.slots[id].orphaned ==>
              Step(c, e).slots[id] == c.slots[id] && (forall m :: m in Step(c, e).queue ==> Step(c, e).queue[m] != id)
  {
    assert SlotOk(c.slots[id]);
  }

  /** The worker rests although the last frame sent is not the latest enqueued. */
  predicate Stale(s: Slot) {
    s.phase.Idle? && !s.orphaned && s.edits != [] && Last(s.edits).frame != s.latest
  }

  /** An edit settles without an orphan while the latest frame differs from the one sent in its options only. */
  predicate GoesStale(c: Coalescer, e: Event, id: nat) {
    && e.EditSettled? && e.id == id && !e.outcome.Orphan? && AwaitsEdit(c, id)
    && var s := c.slots[id];
    && s.latest.text == s.phase.snapshot.text && s.latest.opts != s.phase.snapshot.opts
  }

  predicate EnqueuesInto(c: Coalescer, e: Event, id: nat) {
    e.Enqueued? && e.msgId in c.queue && c.queue[e.msgId] == id
  }

  /** Only text is compared. In every run, a step leaves a slot resting on an outdated frame if and only if it is the
      settlement of an edit whose text is the latest but whose options are not, or the slot was so already and the step
      does not enqueue into it. */
  lemma OptionsGoStaleExactly(canDelete: bool, events: seq<Event>, e: Event, id: nat)
    requires LegalRun(NewCoalescer(canDelete), events) && Possible(After(canDelete, events), e)
    requires id < |Step(After(canDelete, events), e).slots|
    ensures var c := After(canDelete, events);
            Stale(Step(c, e).slots[id])
            <==> GoesStale(c, e, id) || (id < |c.slots| && Stale(c.slots[id]) && !EnqueuesInto(c, e, id))
  {
    RunInv(NewCoalescer(canDelete), events);
    StaleStep(After(canDelete, events), e, id);
  }

  lemma StaleStep(c: Coalescer, e: Event, id: nat)
    requires Inv(c) && Possible(c, e) && id < |Step(c, e).slots|
    ensures Stale(Step(c, e).slots[id])
            <==> GoesStale(c, e, id) || (id < |c.slots| && Stale(c.slots[id]) && !EnqueuesInto(c, e, id))
  {
    if id < |c.slots| {
      assert SlotOk(c.slots[id]) && c.slots[id].edits != [];
    }
    hide HistoryOk, Inv, SlotOk;
    if e.EditSettled? {
      StaleSettlement(c, e, id);
    }
  }

  lemma StaleSettlement(c: Coalescer, e: Event, id: nat)
    requires e.EditSettled? && AwaitsEdit(c, e.id) && id < |c.slots|
    requires var s := c.slots[e.id]; s.edits != [] && s.phase.snapshot == Last(s.edits).frame && !s.orphaned
    ensures Stale(Step(c, e).slots[id]) <==> GoesStale(c, e, id) || Stale(c.slots[id])
  {}

  /** It happens. */
  lemma OptionsMayGoStale()
    ensures var events :=
              [Enqueued("m", Frame("a", None)), Enqueued("m", Frame("a", Some("HTML"))), EditSettled(0, Kept)];
            && LegalRun(NewCoalescer(true), events)
            && var c := After(true, events);
            |c.slots| == 1 && Stale(c.slots[0])
  {}

  // ------------------------------------------------------------------ one worker per message id

  predicate Busy(s: Slot) {
    !s.phase.Idle?
  }

  /** No two running workers have the same message id. */
  ghost predicate OneBusyPerId(c: Coalescer) {
    forall i, j :: 0 <= i < j < |c.slots| && Busy(c.slots[i]) && Busy(c.slots[j]) ==>
      c.slots[i].msgId != c.slots[j].msgId
  }

  /** Every running worker's slot is the one its message id leads to, which keeps a second worker from starting. */
  ghost predicate OneWorkerEach(c: Coalescer) {
    forall id :: 0 <= id < |c.slots| && Busy(c.slots[id]) ==>
      c.slots[id].msgId in c.queue && c.queue[c.slots[id].msgId] == id
  }

  lemma ReachableAreOne(c: Coalescer)
    requires OneWorkerEach(c)
    ensures OneBusyPerId(c)
  {}

  /** The step forgets a slot whose worker is running. */
  predicate ForgetsBusy(c: Coalescer, e: Event) {
    match e
    case Forgotten(msgId) => msgId in c.queue && c.queue[msgId] < |c.slots| && Busy(c.slots[c.queue[msgId]])
    case Cleared => exists id :: 0 <= id < |c.slots| && Busy(c.slots[id])
    case _ => false
  }

  lemma OthersKeepOneWorker(c: Coalescer, e: Event)
    requires QueueOk(c) && OneWorkerEach(c) && Possible(c, e) && !ForgetsBusy(c, e)
    ensures OneWorkerEach(Step(c, e))
  {}

  /** No event of the run forgets a slot whose worker is running. */
  ghost predicate NoneForgotten(c: Coalescer, events: seq<Event>)
    requires LegalRun(c, events)
    decreases |events|
  {
    events == [] || (!ForgetsBusy(c, events[0]) && NoneForgotten(Step(c, events[0]), events[1..]))
  }

  lemma {:induction false} RunKeepsOneWorker(c: Coalescer, events: seq<Event>)
    requires Inv(c) && OneWorkerEach(c) && LegalRun(c, events) && NoneForgotten(c, events)
    ensures OneWorkerEach(Exec(c, events))
    decreases |events|
  {
    hide OneWorkerEach, ForgetsBusy, SlotOk, Step, Possible;
    if events == [] {
    } else {
      StepInv(c, events[0]);
      OthersKeepOneWorker(c, events[0]);
      RunKeepsOneWorker(Step(c, events[0]), events[1..]);
    }
  }

  /** In every run that forgets no slot whose worker is running, there is one worker at most per message id. */
  lemma OneWorkerPerMessage(canDelete: bool, events: seq<Event>)
    requires LegalRun(NewCoalescer(canDelete), events) && NoneForgotten(NewCoalescer(canDelete), events)
    ensures OneBusyPerId(After(canDelete, events))
  {
    RunKeepsOneWorker(NewCoalescer(canDelete), events);
    ReachableAreOne(After(canDelete, events));
  }

  /** One enqueue would now give some message id a second worker. */
  ghost predicate SecondWorkerNext(c: Coalescer) {
    exists m, f :: !OneBusyPerId(Step(c, Enqueued(m, f)))
  }

  lemma ForgottenInvitesSecond(c: Coalescer, e: Event)
    requires Inv(c) && Possible(c, e) && ForgetsBusy(c, e)
    ensures SecondWorkerNext(Step(c, e))
  {
    hide SlotOk;
    var id :| 0 <= id < |c.slots| && Busy(c.slots[id])
              && (e.Forgotten? ==> e.msgId in c.queue && c.queue[e.msgId] == id);
    var m, f := c.slots[id].msgId, Frame("", None);
    var c' := Step(Step(c, e), Enqueued(m, f));
    assert Busy(c'.slots[id]) && Busy(c'.slots[|c.slots|]) && c'.slots[id].msgId == c'.slots[|c.slots|].msgId;
    assert !OneBusyPerId(c');
  }

  lemma ReachableInvitesNoSecond(c: Coalescer)
    requires QueueOk(c) && OneWorkerEach(c)
    ensures !SecondWorkerNext(c)
  {
    forall m, f ensures OneBusyPerId(Step(c, Enqueued(m, f))) {
      OthersKeepOneWorker(c, Enqueued(m, f));
      ReachableAreOne(Step(c, Enqueued(m, f)));
    }
  }

  /** It happens: `clear` forgets the message while its first edit is under way, and the next enqueue starts another. */
  lemma SecondWorkerStarts()
    ensures var events := [Enqueued("m", Frame("a", None)), Cleared, Enqueued("m", Frame("b", None))];
            LegalRun(NewCoalescer(true), events) && !OneBusyPerId(After(true, events))
  {
    var c1 := Step(NewCoalescer(true), Enqueued("m", Frame("a", None)));
    var c2 := Step(c1, Cleared);
    var c3 := Step(c2, Enqueued("m", Frame("b", None)));
    assert Busy(c3.slots[0]) && Busy(c3.slots[1]) && c3.slots[0].msgId == c3.slots[1].msgId;
  }

  /** From a state in which every running worker can be found by its message id, a step lets a second worker for some
      message start with the next enqueue if and only if it forgets a slot whose worker is running. */
  lemma SecondWorkerExactly(c: Coalescer, e: Event)
    requires Inv(c) && OneWorkerEach(c) && Possible(c, e)
    ensures ForgetsBusy(c, e) <==> SecondWorkerNext(Step(c, e))
  {
    hide OneWorkerEach, ForgetsBusy, SlotOk, SecondWorkerNext;
    if ForgetsBusy(c, e) {
      ForgottenInvitesSecond(c, e);
    } else {
      OthersKeepOneWorker(c, e);
      StepInv(c, e);
      ReachableInvitesNoSecond(Step(c, e));
    }
  }

  // ------------------------------------------------------------------ deleting the orphan

  /** How many deletions of orphans have settled in the run. */
  function Deletions(events: seq<Event>): nat {
    if events == [] then 0 else (if events[0].DeleteSettled? then 1 else 0) + Deletions(events[1..])
  }

  lemma StepDeletes(c: Coalescer, e: Event)
    requires Inv(c) && Possible(c, e)
    ensures var c' := Step(c, e);
            && c'.canDelete == c.canDelete
            && (c.canDelete ==> c'.orphanCalls == c.orphanCalls + (if e.DeleteSettled? then 1 else 0))
            && (!c.canDelete && BeingDeleted(c.slots) == 0 ==>
                  !e.DeleteSettled? && BeingDeleted(c'.slots) == 0
                  && c'.orphanCalls == c.orphanCalls + (if FindsOrphan(e) then 1 else 0))
  {
    StepCountsDeletions(c, e);
    hide Inv, SlotOk, HistoryOk;
    if e.DeleteSettled? {
      DeletingIsCounted(c.slots, e.id);
    } else if e.EditSettled? && e.outcome.Orphan? && !c.canDelete {
      BeingDeletedUpdate(c.slots, e.id, Step(c, e).slots[e.id]);
    }
  }

  lemma {:induction false} DeletingIsCounted(slots: seq<Slot>, id: nat)
    requires id < |slots| && slots[id].phase.Deleting?
    ensures BeingDeleted(slots) > 0
  {
    if id == 0 {
    } else {
      DeletingIsCounted(slots[1..], id - 1);
    }
  }

  lemma {:induction false} RunDeletes(c: Coalescer, events: seq<Event>)
    requires Inv(c) && LegalRun(c, events)
    ensures var c' := Exec(c, events);
            && (c.canDelete ==> c'.orphanCalls == c.orphanCalls + Deletions(events))
            && (!c.canDelete && BeingDeleted(c.slots) == 0 ==>
                  Deletions(events) == 0 && BeingDeleted(c'.slots) == 0
                  && c'.orphanCalls == c.orphanCalls + OrphansFound(events))
    decreases |events|
  {
    hide Inv, Possible, Step;
    if events == [] {
    } else {
      StepInv(c, events[0]);
      StepDeletes(c, events[0]);
      RunDeletes(Step(c, events[0]), events[1..]);
    }
  }

  /** On a channel that can delete, onOrphan is called once for each deletion that has settled, and not before; on one
      that cannot, nothing is ever being deleted and onOrphan is called at once for each orphan found. */
  lemma OrphanDeletedFirst(canDelete: bool, events: seq<Event>)
    requires LegalRun(NewCoalescer(canDelete), events)
    ensures var c := After(canDelete, events);
            if canDelete then c.orphanCalls == Deletions(events)
            else Deletions(events) == 0 && BeingDeleted(c.slots) == 0 && c.orphanCalls == OrphansFound(events)
  {
    RunDeletes(NewCoalescer(canDelete), events);
  }
}
