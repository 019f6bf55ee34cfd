/** The dispatcher's closure as the source has it: captured flags that the end paths read and write. The terminal is
    cut at its awaits; each method is the code from one await to the next. */
module TurnTerminal {
  import opened Options
  import M = TurnModel
  import T = TurnTheorems

  class Dispatcher {
    var userTurnSeq: nat
    const initialUserTurnSeq: nat
    var deliveryStateTurnSeq: nat
    var terminalPlainAttempted: bool
    var deliveredPlainFallback: bool
    var terminalFailureHandled: bool
    var streamDeliveryFailed: bool
    var outputSentToUser: bool
    var hadError: bool
    var streamFailureFinalText: string
    var progressiveText: string
    var streamDiedCoalesced: Option<seq<string>>
    var streamHandle: Option<nat>
    var cancelled: set<nat>
    var calls: map<nat, M.Await>
    var started: nat
    ghost var sends: multiset<nat>
    ghost var plain: seq<string>
    ghost var ends: seq<string>
    ghost var cancels: nat
    ghost var retries: nat
    ghost var deliveries: nat

    ghost function View(): M.Turn
      reads this
    {
      M.Turn(userTurnSeq, initialUserTurnSeq, deliveryStateTurnSeq, terminalPlainAttempted, deliveredPlainFallback,
             terminalFailureHandled, streamDeliveryFailed, outputSentToUser, hadError, streamFailureFinalText,
             progressiveText, streamDiedCoalesced, streamHandle, cancelled, calls, started, sends, plain, ends, cancels,
             retries, deliveries)
    }

    constructor (seqNow: nat)
      ensures View() == M.NewTurn(seqNow) && T.GateOk(View())
    {
      userTurnSeq, initialUserTurnSeq, deliveryStateTurnSeq := seqNow, seqNow, seqNow;
      terminalPlainAttempted, deliveredPlainFallback, terminalFailureHandled := false, false, false;
      streamDeliveryFailed, outputSentToUser, hadError := false, false, false;
      streamFailureFinalText, progressiveText, streamDiedCoalesced, streamHandle := "", "", None, None;
      cancelled, calls, started := {}, map[], 0;
      sends, plain, ends, cancels, retries, deliveries := multiset{}, [], [], 0, 0, 0;
    }

    method Suspend(c: nat, at: M.Await)
      modifies this`calls
      ensures View() == M.Suspend(old(View()), c, at)
    {
      calls := calls[c := at];
    }

    /** Up to the await of sendMessage; the gate is shut before it. */
    method SendPlainTerminal(c: nat, text: string, site: M.Site)
      modifies this`calls, this`terminalPlainAttempted, this`sends, this`plain
      ensures View() == M.SendPlain(old(View()), c, text, site)
    {
      if terminalPlainAttempted || deliveredPlainFallback || M.Blank(text) {
        Suspend(c, M.Returned(site, deliveredPlainFallback));
        return;
      }
      terminalPlainAttempted := true;
      RecordSend(text);
      Suspend(c, M.Sending(site));
    }

    ghost method RecordSend(text: string)
      modifies this`sends, this`plain
      ensures View() == old(View()).(sends := old(sends) + multiset{deliveryStateTurnSeq}, plain := old(plain) + [text])
    {
      sends, plain := sends + multiset{deliveryStateTurnSeq}, plain + [text];
    }

    method FlushCoalesced(c: nat)
      modifies this
      ensures View() == M.CoalescedBlock(old(View()), c)
    {
      hide M.FailureBlock, M.SendPlain;
      if streamDiedCoalesced.Some? && |streamDiedCoalesced.value| > 0 {
        SendPlainTerminal(c, M.Join(streamDiedCoalesced.value), M.Coalesced);
        return;
      }
      SendFailedFinal(c);
    }

    method FinalizeNativeStreamTerminal()
      modifies this
      ensures View() == M.Step(old(View()), M.Finalize)
      ensures old(T.GateOk(View())) ==> T.GateOk(View())
    {
      hide M.CoalescedBlock, M.Resume, M.ResetForTurn, T.GateOk;
      T.GateAfter(View(), M.Finalize);
      var c := started;
      started := started + 1;
      FlushCoalesced(c);
    }

    method SendFailedFinal(c: nat)
      modifies this
      ensures View() == M.FailureBlock(old(View()), c)
    {
      hide M.SettleBlock, M.SendPlain;
      if streamDeliveryFailed && !deliveredPlainFallback {
        SendPlainTerminal(c, streamFailureFinalText, M.TotalFailure);
        return;
      }
      SettleStream(c);
    }

    method SettleStream(c: nat)
      modifies this`calls
      ensures View() == M.SettleBlock(old(View()), c)
    {
      match streamHandle {
        case Some(h) => Suspend(c, M.Settling(h));
        case None => Suspend(c, M.Settled);
      }
    }

    method ProbeWireDeath()
      modifies this`streamDiedCoalesced, this`streamHandle
      ensures View() == M.Probe(old(View()))
    {
      if streamHandle.None? || streamHandle.value !in cancelled || streamDiedCoalesced.Some? { return; }
      streamDiedCoalesced := Some([]);
      streamHandle := None;
    }

    method SendUnfinishedPartial(c: nat)
      modifies this
      ensures View() == M.PartialBlock(old(View()), c)
    {
      hide M.EndBlock, M.SendPlain;
      var nativeStreamNeedsPartialFallback :=
        !streamDeliveryFailed
        && (streamDiedCoalesced.Some? || (streamHandle.Some? && streamHandle.value in cancelled));
      if nativeStreamNeedsPartialFallback && !deliveredPlainFallback && !M.Blank(progressiveText) {
        SendPlainTerminal(c, progressiveText, M.PartialWireDeath);
        return;
      }
      EndUnfinishedStream(c);
    }

    method EndUnfinishedStream(c: nat)
      modifies this
      ensures View() == M.EndBlock(old(View()), c)
    {
      hide M.CancelBlock;
      if streamHandle.Some? && !outputSentToUser && !M.Blank(progressiveText) {
        streamHandle := None;
        ends := ends + [progressiveText];
        Suspend(c, M.Ending);
        return;
      }
      CancelUnfinishedStream(c);
    }

    method CancelUnfinishedStream(c: nat)
      modifies this
      ensures View() == M.CancelBlock(old(View()), c)
    {
      hide M.Conclude;
      if streamHandle.Some? {
        cancels := cancels + 1;
        Suspend(c, M.Cancelling);
        return;
      }
      Conclude(c);
    }

    /** A failed delivery: retry the current turn, or report the first one's failure. */
    method HandleFailure()
      modifies this`terminalFailureHandled, this`retries, this`hadError
      ensures View() == if userTurnSeq > initialUserTurnSeq
                        then old(View()).(terminalFailureHandled := true, retries := old(retries) + 1)
                        else old(View()).(terminalFailureHandled := true, hadError := true)
    {
      terminalFailureHandled := true;
      if userTurnSeq > initialUserTurnSeq {
        retries := retries + 1;
      } else {
        hadError := true;
      }
    }

    /** The decision on a failed delivery, and the return. */
    method Conclude(c: nat)
      modifies this
      ensures View() == M.Conclude(old(View()), c)
    {
      calls := calls - {c};
      var failed := streamDeliveryFailed || (terminalPlainAttempted && !deliveredPlainFallback);
      if failed && !terminalFailureHandled {
        HandleFailure();
        return;
      }
      if outputSentToUser || deliveredPlainFallback {
        deliveries := deliveries + 1;
      }
    }

    method AfterPlain(c: nat, site: M.Site, landed: bool)
      modifies this
      ensures View() == M.AfterPlain(old(View()), c, site, landed)
    {
      hide M.FailureBlock, M.SettleBlock, M.EndBlock, M.CancelBlock;
      match site {
        case Coalesced =>
          streamDiedCoalesced := None;
          if !landed { streamDeliveryFailed := true; }
          SendFailedFinal(c);
        case TotalFailure =>
          if landed { streamDeliveryFailed := false; }
          SettleStream(c);
        case PartialWireDeath =>
          if !landed { streamDeliveryFailed := true; }
          EndUnfinishedStream(c);
        case EndFailed =>
          if landed { streamDeliveryFailed := false; }
          CancelUnfinishedStream(c);
        case EndThrew =>
          if landed { streamDeliveryFailed := false; }
          CancelUnfinishedStream(c);
      }
    }

    /** The end of an unfinished stream. */
    method AfterEnd(c: nat, o: M.Outcome)
      requires c in calls && calls[c].Ending?
      modifies this
      ensures View() == M.Resume(old(View()), c, o)
    {
      hide M.CancelBlock, M.SendPlain;
      if o == M.Fine {
        outputSentToUser := true;
        CancelUnfinishedStream(c);
        return;
      }
      streamDeliveryFailed := true;
      streamFailureFinalText := progressiveText;
      SendPlainTerminal(c, progressiveText, if o == M.Reported then M.EndFailed else M.EndThrew);
    }

    /** sendMessage has settled. */
    method AfterSend(c: nat, site: M.Site, o: M.Outcome)
      requires c in calls && calls[c] == M.Sending(site)
      modifies this
      ensures View() == M.Resume(old(View()), c, o)
    {
      if o == M.Fine {
        deliveredPlainFallback := true;
        outputSentToUser := true;
      }
      Suspend(c, M.Returned(site, o == M.Fine));
    }

    method AfterSettle(c: nat, h: nat, o: M.Outcome)
      requires c in calls && calls[c] == M.Settling(h)
      modifies this
      ensures View() == M.Resume(old(View()), c, o)
    {
      hide M.Probe;
      if streamHandle == Some(h) { ProbeWireDeath(); }
      Suspend(c, M.Settled);
    }

    method AfterCancel(c: nat, o: M.Outcome)
      requires c in calls && calls[c].Cancelling?
      modifies this
      ensures View() == M.Resume(old(View()), c, o)
    {
      hide M.Conclude;
      streamHandle := None;
      Conclude(c);
    }

    /** An await of call `c` settles. */
    method Resumes(c: nat, o: M.Outcome)
      requires c in calls
      modifies this
      ensures View() == M.Step(old(View()), M.Resumes(c, o))
      ensures old(T.GateOk(View())) ==> T.GateOk(View())
    {
      T.GateAfter(View(), M.Resumes(c, o));
      match calls[c] {
        case Sending(site) =>
          hide M.Resume, T.GateOk;
          AfterSend(c, site, o);
        case Returned(site, landed) =>
          hide M.AfterPlain, T.GateOk;
          AfterPlain(c, site, landed);
        case Settling(h) =>
          hide M.Resume, T.GateOk;
          AfterSettle(c, h, o);
        case Settled =>
          hide M.PartialBlock, T.GateOk;
          SendUnfinishedPartial(c);
        case Ending =>
          hide M.Resume, T.GateOk;
          AfterEnd(c, o);
        case Cancelling =>
          hide M.Resume, T.GateOk;
          AfterCancel(c, o);
      }
    }

    method OpenGates()
      modifies this`deliveredPlainFallback, this`terminalPlainAttempted, this`terminalFailureHandled
      ensures View() == old(View()).(
                deliveredPlainFallback := false, terminalPlainAttempted := false, terminalFailureHandled := false)
    {
      deliveredPlainFallback, terminalPlainAttempted, terminalFailureHandled := false, false, false;
    }

    method ForgetOutcome()
      modifies this`hadError, this`outputSentToUser, this`streamDeliveryFailed
      ensures View() == old(View()).(hadError := false, outputSentToUser := false, streamDeliveryFailed := false)
    {
      hadError, outputSentToUser, streamDeliveryFailed := false, false, false;
    }

    method ForgetTexts()
      modifies this`streamFailureFinalText, this`progressiveText, this`streamDiedCoalesced
      ensures View() == old(View()).(streamFailureFinalText := "", progressiveText := "", streamDiedCoalesced := None)
    {
      streamFailureFinalText, progressiveText, streamDiedCoalesced := "", "", None;
    }

    /** At the first event of a new turn the gates open again. */
    method OutputArrives()
      modifies this
      ensures View() == M.Step(old(View()), M.OutputArrives)
      ensures old(T.GateOk(View())) ==> T.GateOk(View())
    {
      hide T.GateOk;
      T.GateAfter(View(), M.OutputArrives);
      if userTurnSeq == deliveryStateTurnSeq { return; }
      deliveryStateTurnSeq := userTurnSeq;
      OpenGates();
      ForgetOutcome();
      ForgetTexts();
    }
  }
}
