/** The coalescer as the source has it. The worker's loop is split at its awaits: StartRound up to editMessage,
    EditSettled and DeleteSettled from the two awaits on. */
module FlashEditCoalescerClass {
  import opened Options
  import M = CoalescerModel
  import T = CoalescerTheorems

  class Slot {
    const msgId: string
    var latest: string
    var opts: Option<string>
    var inFlight: bool
    ghost const id: nat
    ghost var phase: M.Phase
    ghost var enqueued: seq<M.Frame>
    ghost var edits: seq<M.Edit>
    ghost var settled: nat
    ghost var orphaned: bool

    ghost function Value(): M.Slot
      reads this
    {
      M.Slot(msgId, M.Frame(latest, opts), phase, enqueued, edits, settled, orphaned)
    }

    /** `inFlight` is set exactly while the worker runs; an enqueue made the slot. */
    ghost predicate Sound()
      reads this
    {
      (inFlight <==> !phase.Idle?) && enqueued != []
    }

    constructor (msgId: string, text: string, opts: Option<string>, ghost id: nat)
      ensures Value() == M.NewSlot(msgId, M.Frame(text, opts)) && Sound() && this.id == id
    {
      this.msgId, this.latest, this.opts, this.inFlight, this.id := msgId, text, opts, false, id;
      phase, enqueued, edits, settled, orphaned := M.Idle, [M.Frame(text, opts)], [], 0, false;
    }

    /** One round of the worker's loop, up to the await: editMessage is called with the snapshot returned. */
    method StartRound() returns (snapshot: string, snapshotOpts: Option<string>)
      requires enqueued != []
      modifies this
      ensures old(Value()).enqueued != [] && Value() == M.StartEdit(old(Value())) && Sound()
      ensures phase == M.Editing(M.Frame(snapshot, snapshotOpts))
    {
      snapshot, snapshotOpts := latest, opts;
      inFlight := true;
      phase := M.Editing(M.Frame(snapshot, snapshotOpts));
      edits := edits + [M.Edit(M.Frame(latest, opts), |enqueued| - 1)];
    }

    method Overwrite(text: string, opts: Option<string>)
      requires Sound()
      modifies this
      ensures Value() == M.EnqueueInto(old(Value()), M.Frame(text, opts)) && Sound()
    {
      this.latest := text;
      this.opts := opts;
      enqueued := enqueued + [M.Frame(text, opts)];
      if inFlight { return; }
      var _, _ := StartRound();
    }

    /** The edit settled without an orphan; `snapshot` is the text the worker sent. */
    method Continue(snapshot: string)
      requires Sound() && phase.Editing? && phase.snapshot.text == snapshot
      modifies this
      ensures old(Value()).enqueued != []
      ensures Value() == M.NextRound(old(Value()).(settled := old(settled) + 1)) && Sound()
    {
      settled := settled + 1;
      if latest == snapshot {
        inFlight := false;
        phase := M.Idle;
        return;
      }
      var _, _ := StartRound();
    }

    /** The edit settled with an orphan, which is being deleted. */
    ghost method FindOrphan()
      requires Sound() && phase.Editing?
      modifies this`settled, this`phase
      ensures Value() == old(Value()).(settled := old(settled) + 1, phase := M.Deleting) && Sound()
    {
      settled := settled + 1;
      phase := M.Deleting;
    }

    method End()
      requires Sound()
      modifies this
      ensures Value() == old(Value()).(phase := M.Idle, orphaned := true) && Sound()
    {
      inFlight := false;
      phase := M.Idle;
      orphaned := true;
    }
  }

  ghost function Values(slots: seq<Slot>): (r: seq<M.Slot>)
    reads slots
    ensures |r| == |slots|
    ensures forall i :: 0 <= i < |slots| ==> r[i] == slots[i].Value()
  {
    seq(|slots|, i requires 0 <= i < |slots| reads slots => slots[i].Value())
  }

  ghost function Ids(queue: map<string, Slot>): map<string, nat> {
    map m | m in queue :: queue[m].id
  }

  lemma IdsRemove(queue: map<string, Slot>, msgId: string)
    ensures Ids(queue - {msgId}) == Ids(queue) - {msgId}
  {}

  lemma IdsAdd(queue: map<string, Slot>, msgId: string, slot: Slot)
    ensures Ids(queue[msgId := slot]) == Ids(queue)[msgId := slot.id]
  {}

  class FlashEditCoalescer {
    const canEdit: bool
    const canDelete: bool
    var queue: map<string, Slot>
    ghost var all: seq<Slot>
    ghost var orphanCalls: nat

    ghost predicate Valid()
      reads this, all
    {
      && (forall i :: 0 <= i < |all| ==> all[i].id == i && all[i].Sound())
      && (forall m :: m in queue ==> queue[m].id < |all| && all[queue[m].id] == queue[m])
    }

    ghost function View(): M.Coalescer
      requires Valid()
      reads this, all
    {
      M.Coalescer(canDelete, Ids(queue), Values(all), orphanCalls)
    }

    constructor (canEdit: bool, canDelete: bool)
      ensures Valid() && View() == M.NewCoalescer(canDelete)
    {
      this.canEdit, this.canDelete, this.queue, this.all, this.orphanCalls := canEdit, canDelete, map[], [], 0;
    }

    /** Only one slot differs from what it was. */
    twostate lemma OneSlotChanged(slot: Slot)
      requires old(Valid()) && all == old(all) && slot in all
      requires forall i :: 0 <= i < |all| && all[i] != slot ==> unchanged(all[i])
      ensures slot.id < |all| && all[slot.id] == slot
      ensures Values(all) == old(Values(all))[slot.id := slot.Value()]
      ensures old(Values(all))[slot.id] == old(slot.Value())
      ensures slot.Sound() ==> forall i :: 0 <= i < |all| ==> all[i].id == i && all[i].Sound()
    {
      forall i | 0 <= i < |all| && i != slot.id ensures all[i].Value() == old(all[i].Value()) {}
    }

    method Enqueue(msgId: string, text: string, opts: Option<string>)
      requires Valid()
      modifies this, all
      ensures Valid()
      ensures View() == if canEdit then M.Enqueue(old(View()), msgId, M.Frame(text, opts)) else old(View())
      ensures T.Inv(old(View())) ==> T.Inv(View())
    {
      hide T.Inv;
      T.GoodStepInv(View(), M.Enqueued(msgId, M.Frame(text, opts)));
      if !canEdit { return; }
      SameIds();
      if msgId in queue {
        var existing := queue[msgId];
        assert existing in all && Ids(queue)[msgId] == existing.id;
        hide Slot.Value, Ids, Values;
        existing.Overwrite(text, opts);
        OneSlotChanged(existing);
        return;
      }
      AddSlot(msgId, text, opts);
    }

    method AddSlot(msgId: string, text: string, opts: Option<string>)
      requires Valid() && msgId !in queue
      modifies this
      ensures Valid() && View() == M.Enqueue(old(View()), msgId, M.Frame(text, opts))
    {
      var slot := NewWorker(msgId, text, opts, |all|);
      hide Slot.Value, Slot.Sound, Ids, M.StartEdit, M.NewSlot;
      IdsAdd(queue, msgId, slot);
      SameIds();
      queue := queue[msgId := slot];
      all := all + [slot];
      assert Values(all) == old(Values(all)) + [slot.Value()];
    }

    /** A new slot whose worker has sent its first edit. */
    method NewWorker(msgId: string, text: string, opts: Option<string>, ghost id: nat) returns (slot: Slot)
      ensures fresh(slot) && slot.id == id && slot.Sound()
      ensures slot.Value() == M.StartEdit(M.NewSlot(msgId, M.Frame(text, opts)))
    {
      slot := new Slot(msgId, text, opts, id);
      var _, _ := slot.StartRound();
    }

    lemma SameIds()
      ensures Ids(queue).Keys == queue.Keys
    {}

    /** drainSlot from the await of editMessage on; `snapshot` is its local variable. */
    method EditSettled(slot: Slot, snapshot: string, outcome: M.EditOutcome)
      requires Valid() && slot in all
      requires slot.phase.Editing? && slot.phase.snapshot.text == snapshot
      modifies this, all
      ensures Valid() && all == old(all)
      ensures M.AwaitsEdit(old(View()), slot.id)
      ensures View() == M.EditSettles(old(View()), slot.id, outcome)
      ensures T.Inv(old(View())) ==> T.Inv(View())
    {
      hide T.Inv;
      OneSlotChanged(slot);
      T.GoodStepInv(View(), M.EditSettled(slot.id, outcome));
      assert M.AwaitsEdit(View(), slot.id);
      hide Slot.Value, Ids, Values, M.NextRound;
      if outcome.Orphan? {
        OrphanFound(slot);
        if !canDelete {
          FinishOrphan(slot);
        }
        return;
      }
      slot.Continue(snapshot);
      OneSlotChanged(slot);
    }

    /** The slot is marked in the view as being deleted. */
    ghost method OrphanFound(slot: Slot)
      requires Valid() && slot in all && slot.phase.Editing?
      modifies slot`settled, slot`phase
      ensures Valid() && all == old(all) && slot.id < |old(View()).slots|
      ensures var s := old(View()).slots[slot.id];
              View() == old(View()).(slots := old(View()).slots[
                slot.id := s.(settled := s.settled + 1, phase := M.Deleting)])
    {
      ghost var s := slot.Value();
      hide Slot.Value, Ids, Values;
      slot.FindOrphan();
      OneSlotChanged(slot);
      assert old(View()).slots[slot.id] == s;
    }

    /** drainSlot from the await of deleteMessage on, which may have failed. */
    method DeleteSettled(slot: Slot)
      requires Valid() && slot in all && slot.phase.Deleting?
      modifies this, all
      ensures Valid() && all == old(all)
      ensures M.AwaitsDelete(old(View()), slot.id)
      ensures View() == M.FinishOrphan(old(View()), slot.id)
      ensures T.Inv(old(View())) ==> T.Inv(View())
    {
      hide T.Inv;
      OneSlotChanged(slot);
      T.GoodStepInv(View(), M.DeleteSettled(slot.id));
      FinishOrphan(slot);
    }

    method FinishOrphan(slot: Slot)
      requires Valid() && slot in all
      modifies this, slot
      ensures Valid() && all == old(all)
      ensures slot.id < |old(View()).slots|
      ensures View() == M.FinishOrphan(old(View()), slot.id)
    {
      hide Slot.Value, Slot.Sound, Ids, Values;
      EndWorker(slot);
      orphanCalls := orphanCalls + 1;
      RemoveFromQueue(slot.msgId);
    }

    method EndWorker(slot: Slot)
      requires Valid() && slot in all
      modifies slot
      ensures Valid() && slot.id < |old(View()).slots| && old(View()).slots[slot.id].msgId == slot.msgId
      ensures View() == old(View()).(slots := old(View()).slots[
                slot.id := old(View()).slots[slot.id].(phase := M.Idle, orphaned := true)])
    {
      assert slot.Value().msgId == slot.msgId;
      hide Slot.Value, Ids, Values;
      slot.End();
      OneSlotChanged(slot);
    }

    /** The end of drain, once the edit it waited for has settled. */
    method Forget(msgId: string)
      requires Valid()
      modifies this
      ensures Valid() && View() == old(View()).(queue := old(View()).queue - {msgId})
      ensures T.Inv(old(View())) ==> T.Inv(View())
    {
      hide T.Inv;
      T.GoodStepInv(View(), M.Forgotten(msgId));
      RemoveFromQueue(msgId);
    }

    /** queue.delete(msgId) */
    method RemoveFromQueue(msgId: string)
      requires Valid()
      modifies this`queue
      ensures Valid() && View() == old(View()).(queue := old(View()).queue - {msgId})
    {
      hide Slot.Value, Slot.Sound, Values;
      IdsRemove(queue, msgId);
      queue := queue - {msgId};
    }

    method Clear()
      requires Valid()
      modifies this
      ensures Valid() && View() == old(View()).(queue := map[])
      ensures T.Inv(old(View())) ==> T.Inv(View())
    {
      hide T.Inv;
      T.GoodStepInv(View(), M.Cleared);
      queue := map[];
    }
  }
}
