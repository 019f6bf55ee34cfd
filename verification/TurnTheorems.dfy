/** What the gates guarantee, whatever the order in which the end paths and the outputs take their steps. */
module TurnTheorems {
  import opened Options
  import opened Text
  import opened TurnModel

  // ------------------------------------------------------------------ one plain send per turn

  /** The gate of the current turn tells whether its send has started; later turns have none yet. */
  ghost predicate GateOk(t: Turn) {
    && t.deliveryStateTurnSeq <= t.userTurnSeq
    && (forall n :: t.sends[n] <= 1)
    && (forall n :: n > t.deliveryStateTurnSeq ==> t.sends[n] == 0)
    && t.sends[t.deliveryStateTurnSeq] == (if t.terminalPlainAttempted then 1 else 0)
  }

  lemma SendPlainKeepsGate(t: Turn, c: nat, text: string, site: Site)
    requires GateOk(t)
    ensures GateOk(SendPlain(t, c, text, site))
  {}

  /** The fields that the gate invariant is about. */
  ghost predicate SameGate(t: Turn, u: Turn) {
    && u.deliveryStateTurnSeq == t.deliveryStateTurnSeq && u.userTurnSeq == t.userTurnSeq
    && u.sends == t.sends && u.terminalPlainAttempted == t.terminalPlainAttempted
  }

  lemma SameGateOk(t: Turn, u: Turn)
    requires GateOk(t) && SameGate(t, u)
    ensures GateOk(u)
  {}

  lemma EndKeepsGate(t: Turn, c: nat)
    requires GateOk(t)
    ensures GateOk(EndBlock(t, c)) && GateOk(CancelBlock(t, c))
  {
    hide GateOk;
    CancelKeepsGate(t, c);
    var ending := Suspend(t.(streamHandle := None, ends := t.ends + [t.progressiveText]), c, Ending);
    SameGateOk(t, ending);
    hide CancelBlock;
  }

  lemma CancelKeepsGate(t: Turn, c: nat)
    requires GateOk(t)
    ensures GateOk(CancelBlock(t, c)) && GateOk(Conclude(t, c))
  {
    hide GateOk;
    SameGateOk(t, Suspend(t.(cancels := t.cancels + 1), c, Cancelling));
    SameGateOk(t, Conclude(t, c));
    hide Conclude;
  }

  lemma BlocksKeepGate(t: Turn, c: nat)
    requires GateOk(t)
    ensures GateOk(CoalescedBlock(t, c)) && GateOk(FailureBlock(t, c)) && GateOk(PartialBlock(t, c))
    ensures GateOk(SettleBlock(t, c))
  {
    hide GateOk, SendPlain;
    SendPlainKeepsGate(t, c, Join(t.streamDiedCoalesced.GetOr([])), Coalesced);
    SendPlainKeepsGate(t, c, t.streamFailureFinalText, TotalFailure);
    SendPlainKeepsGate(t, c, t.progressiveText, PartialWireDeath);
    SameGateOk(t, SettleBlock(t, c));
    EndKeepsGate(t, c);
  }

  lemma AfterPlainKeepsGate(t: Turn, c: nat, site: Site, landed: bool)
    requires GateOk(t)
    ensures GateOk(AfterPlain(t, c, site, landed))
  {
    hide GateOk, FailureBlock, SettleBlock, EndBlock, CancelBlock;
    var more := t.(streamDeliveryFailed := t.streamDeliveryFailed || !landed);
    var less := t.(streamDeliveryFailed := t.streamDeliveryFailed && !landed);
    var cleared := more.(streamDiedCoalesced := None);
    SameGateOk(t, more);
    SameGateOk(t, less);
    SameGateOk(t, cleared);
    BlocksKeepGate(cleared, c);
    BlocksKeepGate(less, c);
    EndKeepsGate(more, c);
    EndKeepsGate(less, c);
  }

  lemma EndingKeepsGate(t: Turn, c: nat, o: Outcome)
    requires GateOk(t) && c in t.calls && t.calls[c].Ending?
    ensures GateOk(Resume(t, c, o))
  {
    hide GateOk, CancelBlock, SendPlain;
    if o == Fine {
      var sent := t.(outputSentToUser := true);
      SameGateOk(t, sent);
      EndKeepsGate(sent, c);
    } else {
      var failed := t.(streamDeliveryFailed := true, streamFailureFinalText := t.progressiveText);
      SameGateOk(t, failed);
      SendPlainKeepsGate(failed, c, t.progressiveText, if o == Reported then EndFailed else EndThrew);
    }
  }

  lemma CancellingKeepsGate(t: Turn, c: nat, o: Outcome)
    requires GateOk(t) && c in t.calls && t.calls[c].Cancelling?
    ensures GateOk(Resume(t, c, o))
  {}

  lemma WaitKeepsGate(t: Turn, c: nat, o: Outcome)
    requires GateOk(t) && c in t.calls && (t.calls[c].Sending? || t.calls[c].Settling?)
    ensures GateOk(Resume(t, c, o))
  {}

  lemma ResumeKeepsGate(t: Turn, c: nat, o: Outcome)
    requires GateOk(t) && c in t.calls
    ensures GateOk(Resume(t, c, o))
  {
    var at := t.calls[c];
    if at.Sending? || at.Settling? {
      hide Resume, GateOk;
      WaitKeepsGate(t, c, o);
    } else if at.Ending? {
      hide Resume, GateOk;
      EndingKeepsGate(t, c, o);
    } else if at.Cancelling? {
      hide Resume, GateOk;
      CancellingKeepsGate(t, c, o);
    } else if at.Settled? {
      hide GateOk, PartialBlock;
      BlocksKeepGate(t, c);
    } else {
      hide GateOk, AfterPlain;
      AfterPlainKeepsGate(t, c, at.site, at.landed);
    }
  }

  lemma OthersKeepGate(t: Turn, e: Event)
    requires GateOk(t) && Possible(t, e) && !e.Finalize? && !e.Resumes?
    ensures GateOk(Step(t, e))
  {}

  lemma StepKeepsGate(t: Turn, e: Event)
    requires GateOk(t) && Possible(t, e)
    ensures GateOk(Step(t, e))
  {
    hide GateOk, CoalescedBlock, Resume;
    if e.Finalize? {
      var t' := t.(started := t.started + 1);
      SameGateOk(t, t');
      BlocksKeepGate(t', t.started);
    } else if e.Resumes? {
      ResumeKeepsGate(t, e.call, e.outcome);
    } else {
      hide Step;
      OthersKeepGate(t, e);
    }
  }

  lemma GateAfter(t: Turn, e: Event)
    requires Possible(t, e)
    ensures GateOk(t) ==> GateOk(Step(t, e))
  {
    if GateOk(t) {
      StepKeepsGate(t, e);
    }
  }

  lemma {:induction false} RunKeepsGate(t: Turn, events: seq<Event>)
    requires GateOk(t) && Legal(t, events)
    ensures GateOk(Exec(t, events))
    decreases |events|
  {
    hide GateOk, Possible, Step;
    if events == [] {
    } else {
      StepKeepsGate(t, events[0]);
      RunKeepsGate(Step(t, events[0]), events[1..]);
    }
  }

  /** Over the whole life of the dispatcher, for any interleaving of end paths, outputs and new turns, at most one
      plain terminal send starts per turn number. */
  lemma OnePlainSendPerTurn(seqNow: nat, events: seq<Event>, turn: nat)
    requires Legal(NewTurn(seqNow), events)
    ensures Exec(NewTurn(seqNow), events).sends[turn] <= 1
  {
    RunKeepsGate(NewTurn(seqNow), events);
  }

  // ------------------------------------------------------------------ terminals that have settled

  predicate Sent(t: Turn) {
    t.terminalPlainAttempted || t.deliveredPlainFallback
  }

  /** Finals are buffered that have not been tried. */
  predicate OwesBuffer(t: Turn) {
    t.streamDiedCoalesced.GetOr([]) != []
  }

  /** A final has failed on the stream, and no plain send of the turn has started. */
  predicate OwesFinal(t: Turn) {
    t.streamDeliveryFailed && !Sent(t) && !Blank(t.streamFailureFinalText)
  }

  /** The wire has died under a partial text, and no plain send of the turn has started. */
  predicate OwesPartial(t: Turn) {
    t.streamDiedCoalesced.Some? && !t.streamDeliveryFailed && !Sent(t) && !Blank(t.progressiveText)
  }

  /** The stream is open, or the turn has failed and nobody has been told. */
  predicate OwesEnd(t: Turn) {
    t.streamHandle.Some? || (Failed(t) && !t.terminalFailureHandled)
  }

  /** A terminal has nothing to do. */
  predicate Quiet(t: Turn) {
    !OwesBuffer(t) && !OwesFinal(t) && !OwesPartial(t) && !OwesEnd(t)
  }

  /** The call will look at the buffer, and at a final that failed, before it returns. */
  predicate SeesBuffer(t: Turn, c: nat) {
    c in t.calls && (t.calls[c].Sending? || t.calls[c].Returned?) && t.calls[c].site == Coalesced
  }

  /** The call will look at the partial text before it returns. */
  predicate SeesPartial(t: Turn, c: nat) {
    c in t.calls
    && match t.calls[c]
       case Sending(site) => site == Coalesced || site == TotalFailure
       case Returned(site, _) => site == Coalesced || site == TotalFailure
       case Settling(_) => true
       case Settled => true
       case _ => false
  }

  /** What a suspended call relies on, whatever others do in the meantime. */
  predicate Relies(t: Turn, at: Await) {
    match at
    case Sending(_) => t.terminalPlainAttempted
    case Returned(site, landed) =>
      (landed ==> t.deliveredPlainFallback) && (site == Coalesced || site == TotalFailure || Sent(t))
    case Ending => !Blank(t.progressiveText)
    case _ => true
  }

  /** Whatever is owed, a call that started as number `from` or later will get to it. */
  ghost predicate Attended(t: Turn, from: nat) {
    && (forall c :: from <= c && c in t.calls ==> Relies(t, t.calls[c]))
    && (OwesBuffer(t) || OwesFinal(t) ==> exists c :: from <= c && SeesBuffer(t, c))
    && (OwesPartial(t) ==> exists c :: from <= c && SeesPartial(t, c))
    && (OwesEnd(t) ==> exists c :: from <= c && c in t.calls)
  }

  /** Nobody but `c` has moved, no gate has opened, and if `c` has returned the stream is closed and a failure known. */
  ghost predicate Moved(t: Turn, u: Turn, c: nat) {
    && u.calls - {c} == t.calls - {c} && u.started == t.started && u.progressiveText == t.progressiveText
    && (t.terminalPlainAttempted ==> u.terminalPlainAttempted)
    && (t.deliveredPlainFallback ==> u.deliveredPlainFallback)
    && (c in u.calls ==> Relies(u, u.calls[c]))
    && (OwesEnd(u) ==> c in u.calls)
  }

  /** `c` has moved and nothing more is owed than before. */
  ghost predicate OwesLess(t: Turn, u: Turn, c: nat) {
    && Moved(t, u, c)
    && (OwesBuffer(u) ==> OwesBuffer(t)) && (OwesFinal(u) ==> OwesFinal(t)) && (OwesPartial(u) ==> OwesPartial(t))
  }

  /** The fields that say what is owed, but for the end. */
  predicate SameDues(t: Turn, u: Turn) {
    && u.streamDiedCoalesced == t.streamDiedCoalesced && u.streamDeliveryFailed == t.streamDeliveryFailed
    && u.streamFailureFinalText == t.streamFailureFinalText && u.progressiveText == t.progressiveText
    && (t.terminalPlainAttempted ==> u.terminalPlainAttempted) && u.deliveredPlainFallback == t.deliveredPlainFallback
  }

  lemma SameDuesOweLess(t: Turn, u: Turn, c: nat)
    requires SameDues(t, u) && Moved(t, u, c)
    ensures OwesLess(t, u, c)
  {
    hide Blank, Moved;
  }

  lemma ConcludeOwesLess(t: Turn, c: nat)
    requires t.streamHandle.None?
    ensures OwesLess(t, Conclude(t, c), c)
  {
    hide OwesLess, Conclude, Moved, SameDues;
    ConcludeMoves(t, c);
    SameDuesOweLess(t, Conclude(t, c), c);
  }

  lemma ConcludeMoves(t: Turn, c: nat)
    requires t.streamHandle.None?
    ensures Moved(t, Conclude(t, c), c) && SameDues(t, Conclude(t, c))
  {
    hide Relies, Failed, Conclude;
    ConcludeTells(t, c);
    assert (t.calls - {c}) - {c} == t.calls - {c};
  }

  /** Who returns has seen to a failure. */
  lemma ConcludeTells(t: Turn, c: nat)
    ensures var u := Conclude(t, c);
            && SameDues(t, u) && u.calls == t.calls - {c} && u.started == t.started && u.streamHandle == t.streamHandle
            && (Failed(u) ==> u.terminalFailureHandled)
  {}

  lemma SuspendOwesLess(t: Turn, c: nat, at: Await)
    requires Relies(t, at)
    ensures OwesLess(t, Suspend(t, c, at), c)
  {
    SameDuesOweLess(t, Suspend(t, c, at), c);
    hide OwesLess, Relies;
  }

  lemma CancelOwesLess(t: Turn, c: nat)
    ensures OwesLess(t, CancelBlock(t, c), c)
  {
    hide Blank, Conclude;
    if t.streamHandle.None? {
      hide OwesLess;
      ConcludeOwesLess(t, c);
    }
  }

  lemma EndOwesLess(t: Turn, c: nat)
    ensures OwesLess(t, EndBlock(t, c), c)
  {
    hide Blank, CancelBlock;
    CancelOwesLess(t, c);
  }

  lemma SendPlainOwesLess(t: Turn, c: nat, text: string, site: Site)
    requires site == Coalesced || site == TotalFailure || Sent(t) || !Blank(text)
    ensures var u := SendPlain(t, c, text, site);
            && OwesLess(t, u, c) && (!Blank(text) ==> Sent(u))
            && c in u.calls && (u.calls[c].Sending? || u.calls[c].Returned?) && u.calls[c].site == site
  {
    hide Blank;
    if t.terminalPlainAttempted || t.deliveredPlainFallback || Blank(text) {
      SuspendOwesLess(t, c, Returned(site, t.deliveredPlainFallback));
      hide OwesLess;
    } else {
      SendingOwesLess(t, c, text, site);
      hide OwesLess;
    }
  }

  lemma SendingOwesLess(t: Turn, c: nat, text: string, site: Site)
    requires !t.terminalPlainAttempted && !t.deliveredPlainFallback && !Blank(text)
    ensures OwesLess(t, SendPlain(t, c, text, site), c)
  {
    hide Blank;
    var sending := t.(terminalPlainAttempted := true, sends := t.sends + multiset{t.deliveryStateTurnSeq},
                      plain := t.plain + [text]);
    assert SendPlain(t, c, text, site) == Suspend(sending, c, Sending(site));
    hide SendPlain;
    SameDuesOweLess(t, Suspend(sending, c, Sending(site)), c);
    hide OwesLess;
  }

  lemma PartialOwesLess(t: Turn, c: nat)
    ensures OwesLess(t, PartialBlock(t, c), c) && !OwesPartial(PartialBlock(t, c))
  {
    hide Blank, EndBlock, SendPlain;
    if NeedsPartialFallback(t) && !t.deliveredPlainFallback && !Blank(t.progressiveText) {
      SendPlainOwesLess(t, c, t.progressiveText, PartialWireDeath);
    } else {
      EndOwesLess(t, c);
    }
  }

  lemma SettleOwesLess(t: Turn, c: nat)
    ensures OwesLess(t, SettleBlock(t, c), c) && SeesPartial(SettleBlock(t, c), c)
  {
    SuspendOwesLess(t, c, Settled);
    if t.streamHandle.Some? {
      SuspendOwesLess(t, c, Settling(t.streamHandle.value));
    }
    hide OwesLess;
  }

  lemma FailureOwesLess(t: Turn, c: nat)
    ensures var u := FailureBlock(t, c);
            OwesLess(t, u, c) && SeesPartial(u, c) && !OwesFinal(u)
  {
    hide Blank, SettleBlock, SendPlain;
    if t.streamDeliveryFailed && !t.deliveredPlainFallback {
      SendPlainOwesLess(t, c, t.streamFailureFinalText, TotalFailure);
    } else {
      SettleOwesLess(t, c);
    }
  }

  /** What is owed after the move of `c` is seen to by `c`, or was owed before and not in the hands of `c`. */
  ghost predicate KeepsAttended(t: Turn, u: Turn, c: nat) {
    && Moved(t, u, c)
    && (OwesBuffer(u) || OwesFinal(u) ==> SeesBuffer(u, c) || ((OwesBuffer(t) || OwesFinal(t)) && !SeesBuffer(t, c)))
    && (OwesPartial(u) ==> SeesPartial(u, c) || (OwesPartial(t) && !SeesPartial(t, c)))
  }

  /** A terminal that starts sees to all that is owed. */
  lemma StartSeesAll(t: Turn, c: nat)
    ensures var u := CoalescedBlock(t, c);
            && Moved(t, u, c) && SeesPartial(u, c) && (OwesBuffer(u) || OwesFinal(u) ==> SeesBuffer(u, c))
  {
    hide Blank, FailureBlock, SendPlain;
    if OwesBuffer(t) {
      SendPlainOwesLess(t, c, Join(t.streamDiedCoalesced.value), Coalesced);
    } else {
      FailureOwesLess(t, c);
    }
  }

  lemma SentKeepsAttended(t: Turn, c: nat, o: Outcome)
    requires c in t.calls && t.calls[c].Sending? && Relies(t, t.calls[c])
    ensures KeepsAttended(t, Resume(t, c, o), c)
  {
    hide Blank;
  }

  lemma AfterCoalesced(t: Turn, c: nat, landed: bool)
    ensures KeepsAttended(t, AfterPlain(t, c, Coalesced, landed), c)
  {
    hide Blank, FailureBlock;
    FailureOwesLess(t.(streamDiedCoalesced := None, streamDeliveryFailed := t.streamDeliveryFailed || !landed), c);
  }

  lemma AfterTotalFailure(t: Turn, c: nat, landed: bool)
    requires c in t.calls && t.calls[c] == Returned(TotalFailure, landed) && Relies(t, t.calls[c])
    ensures KeepsAttended(t, AfterPlain(t, c, TotalFailure, landed), c)
  {
    hide Blank, SettleBlock;
    SettleOwesLess(t.(streamDeliveryFailed := t.streamDeliveryFailed && !landed), c);
  }

  lemma AfterPartial(t: Turn, c: nat, landed: bool)
    requires c in t.calls && t.calls[c] == Returned(PartialWireDeath, landed) && Relies(t, t.calls[c])
    ensures KeepsAttended(t, AfterPlain(t, c, PartialWireDeath, landed), c)
  {
    hide Blank, EndBlock;
    EndOwesLess(t.(streamDeliveryFailed := t.streamDeliveryFailed || !landed), c);
  }

  lemma AfterEnd(t: Turn, c: nat, site: Site, landed: bool)
    requires c in t.calls && t.calls[c] == Returned(site, landed) && Relies(t, t.calls[c])
    requires site == EndFailed || site == EndThrew
    ensures KeepsAttended(t, AfterPlain(t, c, site, landed), c)
  {
    hide Blank, CancelBlock;
    CancelOwesLess(t.(streamDeliveryFailed := t.streamDeliveryFailed && !landed), c);
  }

  lemma AfterPlainKeepsAttended(t: Turn, c: nat, site: Site, landed: bool)
    requires c in t.calls && t.calls[c] == Returned(site, landed) && Relies(t, t.calls[c])
    ensures KeepsAttended(t, AfterPlain(t, c, site, landed), c)
  {
    hide AfterPlain, KeepsAttended, Relies;
    match site {
      case Coalesced => AfterCoalesced(t, c, landed);
      case TotalFailure => AfterTotalFailure(t, c, landed);
      case PartialWireDeath => AfterPartial(t, c, landed);
      case _ => AfterEnd(t, c, site, landed);
    }
  }

  lemma SettledKeepsAttended(t: Turn, c: nat, o: Outcome)
    requires c in t.calls && t.calls[c].Settled?
    ensures KeepsAttended(t, Resume(t, c, o), c)
  {
    hide Blank, PartialBlock;
    PartialOwesLess(t, c);
  }

  lemma SettlingKeepsAttended(t: Turn, c: nat, o: Outcome)
    requires c in t.calls && t.calls[c].Settling?
    ensures KeepsAttended(t, Resume(t, c, o), c)
  {
    hide Blank;
  }

  lemma EndingKeepsAttended(t: Turn, c: nat, o: Outcome)
    requires c in t.calls && t.calls[c].Ending? && Relies(t, Ending)
    ensures KeepsAttended(t, Resume(t, c, o), c)
  {
    hide Blank, CancelBlock, SendPlain;
    if o == Fine {
      CancelOwesLess(t.(outputSentToUser := true), c);
    } else {
      SendPlainOwesLess(t.(streamDeliveryFailed := true, streamFailureFinalText := t.progressiveText), c,
                        t.progressiveText, if o == Reported then EndFailed else EndThrew);
    }
  }

  lemma CancelledKeepsAttended(t: Turn, c: nat, o: Outcome)
    requires c in t.calls && t.calls[c].Cancelling?
    ensures KeepsAttended(t, Resume(t, c, o), c)
  {
    hide Blank, Conclude;
    ConcludeOwesLess(t.(streamHandle := None), c);
  }

  lemma ResumeKeepsAttended(t: Turn, c: nat, o: Outcome)
    requires c in t.calls && Relies(t, t.calls[c])
    ensures KeepsAttended(t, Resume(t, c, o), c)
  {
    var at := t.calls[c];
    if at.Returned? {
      hide KeepsAttended, AfterPlain, Relies;
      AfterPlainKeepsAttended(t, c, at.site, at.landed);
    } else if at.Cancelling? {
      hide Resume, KeepsAttended;
      CancelledKeepsAttended(t, c, o);
    } else {
      hide Resume, KeepsAttended;
      if at.Sending? {
        SentKeepsAttended(t, c, o);
      } else if at.Ending? {
        EndingKeepsAttended(t, c, o);
      } else if at.Settled? {
        SettledKeepsAttended(t, c, o);
      } else {
        SettlingKeepsAttended(t, c, o);
      }
    }
  }

  /** No output arrives, and no call moves that started before number `from`. */
  predicate Since(e: Event, from: nat) {
    !IsOutput(e) && (e.Resumes? ==> from <= e.call)
  }

  /** A call other than `c` is where it was, and still has what it relies on. */
  lemma OthersStay(t: Turn, u: Turn, c: nat, d: nat)
    requires Moved(t, u, c) && d != c
    ensures d in u.calls <==> d in t.calls
    ensures d in t.calls ==> u.calls[d] == t.calls[d] && (Relies(t, t.calls[d]) ==> Relies(u, u.calls[d]))
    ensures SeesBuffer(t, d) ==> SeesBuffer(u, d)
    ensures SeesPartial(t, d) ==> SeesPartial(u, d)
  {
    hide Blank;
    assert d in u.calls - {c} <==> d in t.calls - {c};
    assert d in t.calls ==> (u.calls - {c})[d] == (t.calls - {c})[d];
  }

  lemma MoveKeepsAttended(t: Turn, u: Turn, c: nat, from: nat)
    requires Attended(t, from) && KeepsAttended(t, u, c) && from <= c
    ensures Attended(u, from)
  {
    hide Relies, SeesBuffer, SeesPartial, OwesBuffer, OwesFinal, OwesPartial, OwesEnd;
    forall d | d != c
      ensures d in u.calls <==> d in t.calls
      ensures d in t.calls ==> u.calls[d] == t.calls[d] && (Relies(t, t.calls[d]) ==> Relies(u, u.calls[d]))
      ensures SeesBuffer(t, d) ==> SeesBuffer(u, d)
      ensures SeesPartial(t, d) ==> SeesPartial(u, d)
    {
      OthersStay(t, u, c, d);
    }
  }

  /** A terminal that starts takes over all that is owed. */
  lemma StartAttends(t: Turn, u: Turn, c: nat, from: nat)
    requires forall d :: from <= d && d in t.calls ==> Relies(t, t.calls[d])
    requires Moved(t, u, c) && SeesPartial(u, c) && (OwesBuffer(u) || OwesFinal(u) ==> SeesBuffer(u, c)) && from <= c
    ensures Attended(u, from)
  {
    hide Relies, SeesBuffer, OwesBuffer, OwesFinal, OwesPartial, OwesEnd;
    forall d | d != c
      ensures d in u.calls <==> d in t.calls
      ensures d in t.calls ==> u.calls[d] == t.calls[d] && (Relies(t, t.calls[d]) ==> Relies(u, u.calls[d]))
    {
      OthersStay(t, u, c, d);
    }
  }

  lemma FinalizeAttends(t: Turn, from: nat)
    requires forall d :: from <= d && d in t.calls ==> Relies(t, t.calls[d])
    requires from <= t.started
    ensures Attended(Step(t, Finalize), from)
  {
    hide Attended, Moved, SeesBuffer, SeesPartial, OwesBuffer, OwesFinal, OwesPartial, CoalescedBlock;
    var begun := t.(started := t.started + 1);
    StartSeesAll(begun, t.started);
    forall d | from <= d && d in begun.calls
      ensures Relies(begun, begun.calls[d])
    {
      assert Relies(t, t.calls[d]);
    }
    StartAttends(begun, Step(t, Finalize), t.started, from);
  }

  lemma ResumesAttended(t: Turn, c: nat, o: Outcome, from: nat)
    requires Attended(t, from) && c in t.calls && from <= c
    ensures Attended(Step(t, Resumes(c, o)), from)
  {
    assert Relies(t, t.calls[c]);
    hide Attended, KeepsAttended, Resume, Relies;
    ResumeKeepsAttended(t, c, o);
    MoveKeepsAttended(t, Step(t, Resumes(c, o)), c, from);
  }

  /** Turns piped and wires dying change nothing that the terminals owe. */
  lemma OthersAttended(t: Turn, u: Turn, from: nat)
    requires Attended(t, from) && u == t.(userTurnSeq := u.userTurnSeq, cancelled := u.cancelled)
    ensures Attended(u, from)
  {
    hide Blank;
    assert forall c :: (SeesBuffer(t, c) ==> SeesBuffer(u, c)) && (SeesPartial(t, c) ==> SeesPartial(u, c));
  }

  lemma StepAttended(t: Turn, e: Event, from: nat)
    requires Attended(t, from) && Possible(t, e) && Since(e, from) && from <= t.started
    ensures Attended(Step(t, e), from)
  {
    if e.Finalize? {
      hide Step;
      FinalizeAttends(t, from);
    } else if e.Resumes? {
      hide Step, Attended;
      ResumesAttended(t, e.call, e.outcome, from);
    } else {
      hide Attended;
      OthersAttended(t, Step(t, e), from);
    }
  }

  // A call in flight is one that was, or has a new number.

  /** Nothing but `c` has come into flight. */
  predicate SameCalls(t: Turn, u: Turn, c: nat) {
    u.calls.Keys <= t.calls.Keys + {c} && u.started == t.started
  }

  lemma ConcludeCalls(t: Turn, c: nat)
    ensures SameCalls(t, Conclude(t, c), c)
  {}

  lemma CancelCalls(t: Turn, c: nat)
    ensures SameCalls(t, CancelBlock(t, c), c)
  {
    ConcludeCalls(t, c);
    hide Conclude;
  }

  lemma EndCalls(t: Turn, c: nat)
    ensures SameCalls(t, EndBlock(t, c), c)
  {
    CancelCalls(t, c);
    hide Blank, CancelBlock;
  }

  lemma SendPlainCalls(t: Turn, c: nat, text: string, site: Site)
    ensures SameCalls(t, SendPlain(t, c, text, site), c)
  {
    hide Blank;
  }

  lemma PartialCalls(t: Turn, c: nat)
    ensures SameCalls(t, PartialBlock(t, c), c)
  {
    hide Blank, SameCalls, SendPlain, EndBlock;
    SendPlainCalls(t, c, t.progressiveText, PartialWireDeath);
    EndCalls(t, c);
  }

  lemma FailureCalls(t: Turn, c: nat)
    ensures SameCalls(t, FailureBlock(t, c), c) && SameCalls(t, SettleBlock(t, c), c)
  {
    assert SameCalls(t, SettleBlock(t, c), c);
    hide SameCalls, SendPlain, SettleBlock;
    SendPlainCalls(t, c, t.streamFailureFinalText, TotalFailure);
  }

  lemma CoalescedCalls(t: Turn, c: nat)
    ensures SameCalls(t, CoalescedBlock(t, c), c)
  {
    hide SameCalls, SendPlain, FailureBlock;
    SendPlainCalls(t, c, Join(t.streamDiedCoalesced.GetOr([])), Coalesced);
    FailureCalls(t, c);
  }

  lemma AfterPlainCalls(t: Turn, c: nat, site: Site, landed: bool)
    ensures SameCalls(t, AfterPlain(t, c, site, landed), c)
  {
    hide FailureBlock, SettleBlock, EndBlock, CancelBlock;
    var more := t.(streamDeliveryFailed := t.streamDeliveryFailed || !landed);
    var less := t.(streamDeliveryFailed := t.streamDeliveryFailed && !landed);
    match site {
      case Coalesced => FailureCalls(more.(streamDiedCoalesced := None), c);
      case TotalFailure => FailureCalls(less, c);
      case PartialWireDeath => EndCalls(more, c);
      case _ => CancelCalls(less, c);
    }
  }

  lemma EndingCalls(t: Turn, c: nat, o: Outcome)
    requires c in t.calls && t.calls[c].Ending?
    ensures SameCalls(t, Resume(t, c, o), c)
  {
    hide CancelBlock, SendPlain;
    CancelCalls(t.(outputSentToUser := true), c);
    SendPlainCalls(t.(streamDeliveryFailed := true, streamFailureFinalText := t.progressiveText), c,
                   t.progressiveText, if o == Reported then EndFailed else EndThrew);
  }

  lemma WaitCalls(t: Turn, c: nat, o: Outcome)
    requires c in t.calls && (t.calls[c].Sending? || t.calls[c].Settling?)
    ensures SameCalls(t, Resume(t, c, o), c)
  {
    hide PartialBlock, AfterPlain, Conclude, CancelBlock, SendPlain;
  }

  lemma NoHandleCalls(t: Turn, c: nat)
    ensures SameCalls(t, Conclude(t.(streamHandle := None), c), c)
  {
    ConcludeCalls(t.(streamHandle := None), c);
    hide Conclude;
  }

  lemma ResumeCalls(t: Turn, c: nat, o: Outcome)
    requires c in t.calls
    ensures SameCalls(t, Resume(t, c, o), c)
  {
    var at := t.calls[c];
    if at.Ending? {
      hide Resume, SameCalls;
      EndingCalls(t, c, o);
    } else if at.Returned? {
      hide AfterPlain, SameCalls;
      AfterPlainCalls(t, c, at.site, at.landed);
    } else if at.Cancelling? {
      hide Conclude, SameCalls;
      NoHandleCalls(t, c);
    } else if at.Settled? {
      hide PartialBlock, SameCalls;
      PartialCalls(t, c);
    } else {
      hide Resume, SameCalls;
      WaitCalls(t, c, o);
    }
  }

  lemma StepNumbers(t: Turn, e: Event)
    requires Possible(t, e)
    ensures t.started <= Step(t, e).started
    ensures forall c :: c in Step(t, e).calls ==> c in t.calls || t.started <= c < Step(t, e).started
  {
    hide CoalescedBlock, Resume;
    if e.Finalize? {
      CoalescedCalls(t.(started := t.started + 1), t.started);
    } else if e.Resumes? {
      ResumeCalls(t, e.call, e.outcome);
    }
  }

  /** Calls are numbered in the order in which they start. */
  ghost predicate Numbered(t: Turn) {
    forall c :: c in t.calls ==> c < t.started
  }

  lemma {:induction false} RunNumbered(t: Turn, events: seq<Event>)
    requires Numbered(t) && Legal(t, events)
    ensures Numbered(Exec(t, events))
    decreases |events|
  {
    hide Possible, Step;
    if events == [] {
    } else {
      StepNumbers(t, events[0]);
      RunNumbered(Step(t, events[0]), events[1..]);
    }
  }

  /** When no call is in flight, every call that moves has started since. */
  lemma {:induction false} AllSince(t: Turn, events: seq<Event>, from: nat)
    requires from <= t.started && (forall c :: c in t.calls ==> from <= c)
    requires Legal(t, events) && forall e :: e in events ==> !IsOutput(e)
    ensures forall e :: e in events ==> Since(e, from)
    ensures forall c :: c in Exec(t, events).calls ==> from <= c
    decreases |events|
  {
    hide Step, IsOutput;
    if events == [] {
    } else {
      StepNumbers(t, events[0]);
      AllSince(Step(t, events[0]), events[1..], from);
      assert forall e :: e in events ==> e == events[0] || e in events[1..];
    }
  }

  lemma {:induction false} RunAttended(t: Turn, events: seq<Event>, from: nat)
    requires Attended(t, from) && Legal(t, events) && (forall e :: e in events ==> Since(e, from))
    requires from <= t.started
    ensures Attended(Exec(t, events), from)
    decreases |events|
  {
    hide Attended, Possible, Step, Since;
    if events == [] {
    } else {
      StepAttended(t, events[0], from);
      StepNumbers(t, events[0]);
      RunAttended(Step(t, events[0]), events[1..], from);
    }
  }

  lemma AttendedIsQuiet(t: Turn, from: nat)
    requires Attended(t, from) && forall c :: c in t.calls ==> c < from
    ensures Quiet(t)
  {
    hide OwesBuffer, OwesFinal, OwesPartial, OwesEnd;
  }

  /** A terminal starts, and any number of others after it, their steps in any order, with turns piped and wires dying
      but no output event: when the last of them has returned, nothing is left to do. It does not matter in what state
      the first one starts, nor what calls are then in flight, if these do not move. (`Numbered` holds in every
      run: RunNumbered.) */
  lemma SettlesQuiet(t: Turn, events: seq<Event>)
    requires Numbered(t)
    requires Legal(t, [Finalize] + events) && forall e :: e in events ==> Since(e, t.started)
    requires forall c :: c in Exec(t, [Finalize] + events).calls ==> c < t.started
    ensures Quiet(Exec(t, [Finalize] + events))
  {
    hide Attended, Legal, Exec, Since, Quiet, Step;
    FirstEvent(t, Finalize, events);
    FinalizeAttends(t, t.started);
    StepNumbers(t, Finalize);
    RunAttended(Step(t, Finalize), events, t.started);
    AttendedIsQuiet(Exec(t, [Finalize] + events), t.started);
  }

  lemma FirstEvent(t: Turn, e: Event, rest: seq<Event>)
    ensures Legal(t, [e] + rest) <==> Possible(t, e) && Legal(Step(t, e), rest)
    ensures Legal(t, [e] + rest) ==> Exec(t, [e] + rest) == Exec(Step(t, e), rest)
  {}

  lemma FinalizeFirst(t: Turn, events: seq<Event>)
    requires Legal(t, [Finalize] + events)
    ensures var begun := CoalescedBlock(t.(started := t.started + 1), t.started);
            Legal(begun, events) && Exec(t, [Finalize] + events) == Exec(begun, events)
  {
    hide CoalescedBlock, Resume, ResetForTurn, Legal, Exec;
    FirstEvent(t, Finalize, events);
  }

  // ------------------------------------------------------------------ its repeats

  /** Where a call may be suspended that found nothing to do. */
  predicate Idling(t: Turn, at: Await) {
    || at.Settled?
    || at == Returned(TotalFailure, false)
    || (at == Returned(PartialWireDeath, false) && t.terminalPlainAttempted && !t.deliveredPlainFallback)
  }

  /** Nothing to do, and no call that is doing anything. */
  ghost predicate AllQuiet(t: Turn) {
    Quiet(t) && forall c :: c in t.calls ==> Idling(t, t.calls[c])
  }

  /** No send, end, cancel or retry between the two states. */
  predicate NothingDone(t: Turn, u: Turn) {
    && u.sends == t.sends && u.plain == t.plain && u.ends == t.ends && u.cancels == t.cancels
    && u.retries == t.retries && u.hadError == t.hadError
  }

  /** What an idle step of `c` leaves. */
  ghost predicate IdleStep(t: Turn, u: Turn, c: nat) {
    && NothingDone(t, u) && Quiet(u)
    && u.terminalPlainAttempted == t.terminalPlainAttempted && u.deliveredPlainFallback == t.deliveredPlainFallback
    && (forall d :: d != c ==> (d in u.calls <==> d in t.calls) && (d in t.calls ==> u.calls[d] == t.calls[d]))
    && (c in u.calls ==> Idling(u, u.calls[c]))
  }

  lemma IdleStart(t: Turn, c: nat)
    requires Quiet(t)
    ensures IdleStep(t, CoalescedBlock(t, c), c)
  {
    hide Blank, EndBlock, CancelBlock, Conclude;
  }

  lemma IdleResume(t: Turn, c: nat, o: Outcome)
    requires Quiet(t) && c in t.calls && Idling(t, t.calls[c])
    ensures IdleStep(t, Resume(t, c, o), c)
  {}

  lemma IdleKeepsAllQuiet(t: Turn, u: Turn, c: nat)
    requires AllQuiet(t) && IdleStep(t, u, c)
    ensures AllQuiet(u)
  {
    hide Quiet;
  }

  lemma QuietStep(t: Turn, e: Event)
    requires AllQuiet(t) && Possible(t, e) && !IsOutput(e)
    ensures AllQuiet(Step(t, e)) && NothingDone(t, Step(t, e))
  {
    hide Quiet, CoalescedBlock, Resume;
    if e.Finalize? {
      var t' := t.(started := t.started + 1);
      QuietAnyway(t, t');
      IdleStart(t', t.started);
      IdleKeepsAllQuiet(t', Step(t, e), t.started);
    } else if e.Resumes? {
      IdleResume(t, e.call, e.outcome);
      IdleKeepsAllQuiet(t, Step(t, e), e.call);
    } else {
      QuietAnyway(t, Step(t, e));
    }
  }

  lemma QuietAnyway(t: Turn, u: Turn)
    requires AllQuiet(t)
    requires u == t.(userTurnSeq := u.userTurnSeq, cancelled := u.cancelled, started := u.started)
    ensures AllQuiet(u)
  {
    hide Blank;
  }

  lemma {:induction false} RunQuiet(t: Turn, events: seq<Event>)
    requires AllQuiet(t) && Legal(t, events) && forall e :: e in events ==> !IsOutput(e)
    ensures AllQuiet(Exec(t, events)) && NothingDone(t, Exec(t, events))
    decreases |events|
  {
    hide AllQuiet, Possible, Step;
    if events == [] {
    } else {
      QuietStep(t, events[0]);
      RunQuiet(Step(t, events[0]), events[1..]);
    }
  }

  /** Once terminals have run their course, in any interleaving, any number of further ones, in any interleaving, with
      turns piped and wires dying but no output event in between, start no send, end no stream, cancel none and ask
      for no retry. */
  lemma RepeatsDoNothing(t: Turn, first: seq<Event>, more: seq<Event>)
    requires t.calls == map[]
    requires Legal(t, [Finalize] + first) && forall e :: e in first ==> !IsOutput(e)
    requires Exec(t, [Finalize] + first).calls == map[]
    requires Legal(Exec(t, [Finalize] + first), more) && forall e :: e in more ==> !IsOutput(e)
    ensures Quiet(Exec(t, [Finalize] + first))
    ensures NothingDone(Exec(t, [Finalize] + first), Exec(Exec(t, [Finalize] + first), more))
  {
    hide Quiet, Exec, Legal, IsOutput, Since, Step;
    FirstEvent(t, Finalize, first);
    StepNumbers(t, Finalize);
    AllSince(Step(t, Finalize), first, t.started);
    SettlesQuiet(t, first);
    RunQuiet(Exec(t, [Finalize] + first), more);
  }

  // ------------------------------------------------------------------ two terminals at once

  /** Only `c` runs, new turns may be piped and wires may die. */
  predicate Alone(e: Event, c: nat) {
    e.TurnPiped? || e.WireDies? || (e.Resumes? && e.call == c)
  }

  /** A plain send of this turn has started and none has landed: one is in flight, or has failed. */
  predicate Unlanded(t: Turn) {
    t.terminalPlainAttempted && !t.deliveredPlainFallback
  }

  /** The failure of this turn was not handled at `t` and has been since: by a retry if it is a follow-up turn, else
      as the run's error. */
  predicate AskedSince(t: Turn, u: Turn) {
    && !t.terminalFailureHandled && u.terminalFailureHandled
    && ((u.retries == t.retries + 1 && u.hadError == t.hadError && u.userTurnSeq > u.initialUserTurnSeq)
        || (u.retries == t.retries && u.hadError && t.userTurnSeq <= u.initialUserTurnSeq))
  }

  predicate NotAsked(t: Turn, u: Turn) {
    u.terminalFailureHandled == t.terminalFailureHandled && u.retries == t.retries && u.hadError == t.hadError
  }

  /** Since `t` nothing has landed and nobody has been asked. */
  predicate Underway(t: Turn, u: Turn) {
    && Unlanded(u) && NotAsked(t, u)
    && u.initialUserTurnSeq == t.initialUserTurnSeq && t.userTurnSeq <= u.userTurnSeq
  }

  /** Where the terminal `c`, started from `t`, can be while nothing else lands. */
  predicate Beside(t: Turn, u: Turn, c: nat) {
    if c in u.calls then !u.calls[c].Sending? && Underway(t, u)
    else Unlanded(u) && u.initialUserTurnSeq == t.initialUserTurnSeq && t.userTurnSeq <= u.userTurnSeq
         && if t.terminalFailureHandled then NotAsked(t, u) else AskedSince(t, u)
  }

  lemma ConcludeBeside(t: Turn, u: Turn, c: nat)
    requires Underway(t, u)
    ensures Beside(t, Conclude(u, c), c)
  {}

  /** The gate is shut: a call of sendPlainTerminal returns at once. */
  lemma SendPlainBeside(t: Turn, u: Turn, c: nat, text: string, site: Site)
    requires Underway(t, u)
    ensures Beside(t, SendPlain(u, c, text, site), c)
  {
    hide Blank;
  }

  lemma CancelBeside(t: Turn, u: Turn, c: nat)
    requires Underway(t, u)
    ensures Beside(t, CancelBlock(u, c), c)
  {
    ConcludeBeside(t, u, c);
    hide Conclude;
  }

  lemma EndBeside(t: Turn, u: Turn, c: nat)
    requires Underway(t, u)
    ensures Beside(t, EndBlock(u, c), c)
  {
    CancelBeside(t, u, c);
    hide CancelBlock, Blank;
  }

  lemma PartialBeside(t: Turn, u: Turn, c: nat)
    requires Underway(t, u)
    ensures Beside(t, PartialBlock(u, c), c)
  {
    hide EndBlock, SendPlain, Beside, Underway;
    EndBeside(t, u, c);
    SendPlainBeside(t, u, c, u.progressiveText, PartialWireDeath);
  }

  lemma SettleBeside(t: Turn, u: Turn, c: nat)
    requires Underway(t, u)
    ensures Beside(t, SettleBlock(u, c), c)
  {}

  lemma FailureBeside(t: Turn, u: Turn, c: nat)
    requires Underway(t, u)
    ensures Beside(t, FailureBlock(u, c), c)
  {
    hide SettleBlock, SendPlain, Beside, Underway;
    SettleBeside(t, u, c);
    SendPlainBeside(t, u, c, u.streamFailureFinalText, TotalFailure);
  }

  lemma CoalescedBeside(t: Turn, u: Turn, c: nat)
    requires Underway(t, u)
    ensures Beside(t, CoalescedBlock(u, c), c)
  {
    hide FailureBlock, SendPlain, Beside, Underway;
    FailureBeside(t, u, c);
    SendPlainBeside(t, u, c, Join(u.streamDiedCoalesced.GetOr([])), Coalesced);
  }

  lemma AfterPlainBeside(t: Turn, u: Turn, c: nat, site: Site, landed: bool)
    requires Underway(t, u)
    ensures Beside(t, AfterPlain(u, c, site, landed), c)
  {
    hide FailureBlock, SettleBlock, EndBlock, CancelBlock, Beside;
    var more := u.(streamDeliveryFailed := u.streamDeliveryFailed || !landed);
    var less := u.(streamDeliveryFailed := u.streamDeliveryFailed && !landed);
    match site {
      case Coalesced => FailureBeside(t, more.(streamDiedCoalesced := None), c);
      case TotalFailure => SettleBeside(t, less, c);
      case PartialWireDeath => EndBeside(t, more, c);
      case _ => CancelBeside(t, less, c);
    }
  }

  lemma EndingBeside(t: Turn, u: Turn, c: nat, o: Outcome)
    requires Underway(t, u) && c in u.calls && u.calls[c].Ending?
    ensures Beside(t, Resume(u, c, o), c)
  {
    hide CancelBlock, SendPlain, Beside;
    if o == Fine {
      CancelBeside(t, u.(outputSentToUser := true), c);
    } else {
      var failed := u.(streamDeliveryFailed := true, streamFailureFinalText := u.progressiveText);
      SendPlainBeside(t, failed, c, u.progressiveText, if o == Reported then EndFailed else EndThrew);
    }
  }

  lemma ResumeBeside(t: Turn, u: Turn, c: nat, o: Outcome)
    requires Beside(t, u, c) && c in u.calls
    ensures Beside(t, Resume(u, c, o), c)
  {
    var at := u.calls[c];
    if at.Returned? {
      hide AfterPlain, Underway;
      AfterPlainBeside(t, u, c, at.site, at.landed);
    } else if at.Settled? {
      hide PartialBlock, Underway;
      PartialBeside(t, u, c);
    } else if at.Ending? {
      hide Resume, Underway;
      EndingBeside(t, u, c, o);
    } else if at.Cancelling? {
      hide Conclude, Beside;
      ConcludeBeside(t, u.(streamHandle := None), c);
    } else {
      hide AfterPlain, PartialBlock, CancelBlock, Conclude, SendPlain;
    }
  }

  lemma AloneBeside(t: Turn, u: Turn, e: Event, c: nat)
    requires Beside(t, u, c) && Possible(u, e) && Alone(e, c)
    ensures Beside(t, Step(u, e), c)
  {
    if e.Resumes? {
      hide Resume, Beside;
      ResumeBeside(t, u, c, e.outcome);
    } else {
      hide Resume;
    }
  }

  lemma {:induction false} RunBeside(t: Turn, u: Turn, events: seq<Event>, c: nat)
    requires Beside(t, u, c) && Legal(u, events)
    requires forall e :: e in events ==> Alone(e, c)
    ensures Beside(t, Exec(u, events), c)
    decreases |events|
  {
    hide Beside, Possible, Step, Alone;
    if events == [] {
    } else {
      AloneBeside(t, u, events[0], c);
      RunBeside(t, Step(u, events[0]), events[1..], c);
    }
  }

  /** A terminal that runs alone to its end while a plain send of the turn is in flight, or has failed, takes the turn
      for failed: when it returns, the failure is handled, by a retry in a follow-up turn and as the run's error in the
      first one, if and only if it had not been handled before. */
  lemma BesideASendAsksExactly(t: Turn, events: seq<Event>)
    requires Unlanded(t)
    requires Legal(t, [Finalize] + events) && forall e :: e in events ==> Alone(e, t.started)
    requires t.started !in Exec(t, [Finalize] + events).calls
    ensures var u := Exec(t, [Finalize] + events);
            && Unlanded(u)
            && (AskedSince(t, u) <==> !t.terminalFailureHandled)
            && (NotAsked(t, u) <==> t.terminalFailureHandled)
  {
    hide Exec, Legal, CoalescedBlock, Alone;
    FinalizeFirst(t, events);
    var begun := t.(started := t.started + 1);
    CoalescedBeside(t, begun, t.started);
    RunBeside(t, CoalescedBlock(begun, t.started), events, t.started);
  }

  /** A follow-up turn whose wire has died, with one final buffered. */
  function Buffered(): Turn {
    NewTurn(0).(userTurnSeq := 1, deliveryStateTurnSeq := 1, streamDiedCoalesced := Some(["a"]))
  }

  const BUFFERED := Writes("", "", Some(["a"]), None, false, false, false)

  lemma ReachesBuffered(rest: seq<Event>)
    requires Legal(Buffered(), rest)
    ensures var events := [TurnPiped, OutputArrives, OutputWrites(BUFFERED)] + rest;
            Legal(NewTurn(0), events) && Exec(NewTurn(0), events) == Exec(Buffered(), rest)
  {
    var t1 := Step(NewTurn(0), TurnPiped);
    var t2 := Step(t1, OutputArrives);
    assert Step(t2, OutputWrites(BUFFERED)) == Buffered();
    hide Step, Buffered;
    FirstEvent(t2, OutputWrites(BUFFERED), rest);
    FirstEvent(t1, OutputArrives, [OutputWrites(BUFFERED)] + rest);
    FirstEvent(NewTurn(0), TurnPiped, [OutputArrives] + ([OutputWrites(BUFFERED)] + rest));
    assert [TurnPiped, OutputArrives, OutputWrites(BUFFERED)] + rest
        == [TurnPiped] + ([OutputArrives] + ([OutputWrites(BUFFERED)] + rest));
  }

  /** In a run of the dispatcher, a second terminal starts while the first one's send is in flight, asks for a retry,
      and then the user gets the turn after all. */
  lemma RacingTerminalAsksForRetry(racing: seq<Event>)
    requires racing == [Finalize, Finalize, Resumes(1, Fine), Resumes(1, Fine), Resumes(1, Fine), Resumes(0, Fine)]
    ensures var events := [TurnPiped, OutputArrives, OutputWrites(BUFFERED)] + racing;
            && Legal(NewTurn(0), events)
            && var t := Exec(NewTurn(0), events);
            t.deliveredPlainFallback && t.retries == 1 && t.sends[1] == 1
  {
    assert !Blank("a");
    var r, t1 := Resumes(1, Fine), Step(Buffered(), Finalize);
    assert t1 == Buffered().(
      started := 1, terminalPlainAttempted := true, sends := multiset{1}, plain := ["a"],
      calls := map[0 := Sending(Coalesced)]);
    var t2 := Step(t1, Finalize);
    assert t2 == t1.(started := 2, calls := map[0 := Sending(Coalesced), 1 := Returned(Coalesced, false)]);
    var t5 := RacingTerminalConcludes(t2, [Resumes(0, Fine)]);
    var t6 := Step(t5, Resumes(0, Fine));
    assert t6.deliveredPlainFallback && t6.retries == 1 && t6.sends[1] == 1;
    hide Step, Buffered;
    FirstEvent(t5, Resumes(0, Fine), []);
    assert [Resumes(0, Fine)] + [] == [Resumes(0, Fine)];
    assert [r, r, r] + [Resumes(0, Fine)] == [r, r, r, Resumes(0, Fine)];
    FirstEvent(t1, Finalize, [r, r, r, Resumes(0, Fine)]);
    FirstEvent(Buffered(), Finalize, [Finalize, r, r, r, Resumes(0, Fine)]);
    assert [Finalize] + [r, r, r, Resumes(0, Fine)] == [Finalize, r, r, r, Resumes(0, Fine)];
    assert racing == [Finalize] + [Finalize, r, r, r, Resumes(0, Fine)];
    ReachesBuffered(racing);
  }

  lemma ThreeSteps(t: Turn, r: Event, rest: seq<Event>)
    requires Possible(t, r) && Possible(Step(t, r), r) && Possible(Step(Step(t, r), r), r)
    ensures var u := Step(Step(Step(t, r), r), r);
            && (Legal(t, [r, r, r] + rest) <==> Legal(u, rest))
            && (Legal(u, rest) ==> Exec(t, [r, r, r] + rest) == Exec(u, rest))
  {
    hide Step, Possible;
    FirstEvent(t, r, [r, r] + rest);
    FirstEvent(Step(t, r), r, [r] + rest);
    FirstEvent(Step(Step(t, r), r), r, rest);
    assert [r] + ([r, r] + rest) == [r, r, r] + rest && [r] + ([r] + rest) == [r, r] + rest;
  }

  lemma RacingTerminalConcludes(t2: Turn, rest: seq<Event>) returns (t5: Turn)
    requires t2.streamDiedCoalesced == Some(["a"]) && t2.terminalPlainAttempted && !t2.deliveredPlainFallback
    requires !t2.terminalFailureHandled && t2.streamHandle == None && t2.userTurnSeq > t2.initialUserTurnSeq
    requires t2.calls == map[0 := Sending(Coalesced), 1 := Returned(Coalesced, false)]
    ensures var r := Resumes(1, Fine);
            && (Legal(t2, [r, r, r] + rest) <==> Legal(t5, rest))
            && (Legal(t5, rest) ==> Exec(t2, [r, r, r] + rest) == Exec(t5, rest))
    ensures t5 == t2.(streamDiedCoalesced := None, streamDeliveryFailed := true, terminalFailureHandled := true,
                      retries := t2.retries + 1, calls := map[0 := Sending(Coalesced)])
  {
    hide Blank;
    var failed := t2.(streamDiedCoalesced := None, streamDeliveryFailed := true);
    var t3 := Step(t2, Resumes(1, Fine));
    assert t3 == Suspend(failed, 1, Returned(TotalFailure, false));
    var t4 := Step(t3, Resumes(1, Fine));
    assert t4 == Suspend(failed, 1, Settled);
    t5 := Step(t4, Resumes(1, Fine));
    assert t5 == Conclude(t4, 1);
    assert t5.calls == map[0 := Sending(Coalesced)];
    ThreeSteps(t2, Resumes(1, Fine), rest);
  }
}
