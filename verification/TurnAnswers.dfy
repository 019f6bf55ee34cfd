/** What the user gets from a turn's terminals, in any interleaving of them: the text that goes out plainly, the stream
    that is ended or cancelled, and what the queue is told. */
module TurnAnswers {
  import opened Options
  import opened Text
  import opened TurnModel
  import opened TurnTheorems

  // ------------------------------------------------------------------ what the queue is told

  /** The call `c` returns at this step. */
  predicate Returns(t: Turn, e: Event, c: nat)
    requires Possible(t, e)
  {
    c !in Step(t, e).calls && ((e == Finalize && c == t.started) || (e.Resumes? && e.call == c))
  }

  predicate Asks(t: Turn, u: Turn) {
    u.terminalFailureHandled && !t.terminalFailureHandled
  }

  /** What a step says: a failed turn is asked for again, or is the run's error, or a delivery is reported, or
      nothing. */
  ghost predicate Tells(t: Turn, u: Turn, returned: bool) {
    && (Asks(t, u) <==> returned && Failed(u) && !t.terminalFailureHandled)
    && (t.terminalFailureHandled ==> u.terminalFailureHandled)
    && u.retries == t.retries + (if Asks(t, u) && u.userTurnSeq > u.initialUserTurnSeq then 1 else 0)
    && u.hadError == (t.hadError || (Asks(t, u) && u.userTurnSeq <= u.initialUserTurnSeq))
    && u.deliveries == t.deliveries
       + (if returned && !Asks(t, u) && (u.outputSentToUser || u.deliveredPlainFallback) then 1 else 0)
  }

  /** Nothing has been told, and nobody has returned. */
  predicate Mute(t: Turn, u: Turn) {
    && u.terminalFailureHandled == t.terminalFailureHandled && u.retries == t.retries && u.hadError == t.hadError
    && u.deliveries == t.deliveries && u.userTurnSeq == t.userTurnSeq && u.initialUserTurnSeq == t.initialUserTurnSeq
  }

  /** `u` is where the call `c` gets from `t`: it is suspended and has told nothing, or has returned and told. */
  ghost predicate Leads(t: Turn, u: Turn, c: nat) {
    u.initialUserTurnSeq == t.initialUserTurnSeq && if c in u.calls then Mute(t, u) else Tells(t, u, true)
  }

  lemma MuteLeads(t: Turn, p: Turn, u: Turn, c: nat)
    requires Mute(t, p) && Leads(p, u, c)
    ensures Leads(t, u, c)
  {}

  lemma ConcludeLeads(t: Turn, c: nat)
    ensures Leads(t, Conclude(t, c), c)
  {}

  lemma SendPlainLeads(t: Turn, c: nat, text: string, site: Site)
    ensures Leads(t, SendPlain(t, c, text, site), c)
  {
    hide Blank;
  }

  lemma CancelLeads(t: Turn, c: nat)
    ensures Leads(t, CancelBlock(t, c), c)
  {
    ConcludeLeads(t, c);
    hide Conclude;
  }

  lemma EndLeads(t: Turn, c: nat)
    ensures Leads(t, EndBlock(t, c), c)
  {
    CancelLeads(t, c);
    hide CancelBlock, Blank;
  }

  lemma PartialLeads(t: Turn, c: nat)
    ensures Leads(t, PartialBlock(t, c), c)
  {
    EndLeads(t, c);
    SendPlainLeads(t, c, t.progressiveText, PartialWireDeath);
    hide EndBlock, SendPlain, Blank, Leads;
  }

  lemma SettleLeads(t: Turn, c: nat)
    ensures Leads(t, SettleBlock(t, c), c)
  {
    hide Tells;
  }

  lemma FailureLeads(t: Turn, c: nat)
    ensures Leads(t, FailureBlock(t, c), c)
  {
    SettleLeads(t, c);
    SendPlainLeads(t, c, t.streamFailureFinalText, TotalFailure);
    hide SettleBlock, SendPlain, Leads;
  }

  lemma CoalescedLeads(t: Turn, c: nat)
    ensures Leads(t, CoalescedBlock(t, c), c)
  {
    FailureLeads(t, c);
    SendPlainLeads(t, c, Join(t.streamDiedCoalesced.GetOr([])), Coalesced);
    hide FailureBlock, SendPlain, Leads;
  }

  lemma AfterPlainLeads(t: Turn, c: nat, site: Site, landed: bool)
    ensures Leads(t, AfterPlain(t, c, site, landed), c)
  {
    hide FailureBlock, SettleBlock, EndBlock, CancelBlock, Leads;
    var more := t.(streamDeliveryFailed := t.streamDeliveryFailed || !landed);
    var less := t.(streamDeliveryFailed := t.streamDeliveryFailed && !landed);
    match site {
      case Coalesced =>
        var cleared := more.(streamDiedCoalesced := None);
        FailureLeads(cleared, c);
        MuteLeads(t, cleared, FailureBlock(cleared, c), c);
      case TotalFailure =>
        SettleLeads(less, c);
        MuteLeads(t, less, SettleBlock(less, c), c);
      case PartialWireDeath =>
        EndLeads(more, c);
        MuteLeads(t, more, EndBlock(more, c), c);
      case _ =>
        CancelLeads(less, c);
        MuteLeads(t, less, CancelBlock(less, c), c);
    }
  }

  lemma EndingLeads(t: Turn, c: nat, o: Outcome)
    requires c in t.calls && t.calls[c].Ending?
    ensures Leads(t, Resume(t, c, o), c)
  {
    hide CancelBlock, SendPlain, Leads;
    if o == Fine {
      var sent := t.(outputSentToUser := true);
      CancelLeads(sent, c);
      MuteLeads(t, sent, CancelBlock(sent, c), c);
    } else {
      var failed := t.(streamDeliveryFailed := true, streamFailureFinalText := t.progressiveText);
      var site := if o == Reported then EndFailed else EndThrew;
      SendPlainLeads(failed, c, t.progressiveText, site);
      MuteLeads(t, failed, SendPlain(failed, c, t.progressiveText, site), c);
    }
  }

  lemma WaitLeads(t: Turn, c: nat, o: Outcome)
    requires c in t.calls && (t.calls[c].Sending? || t.calls[c].Settling?)
    ensures Leads(t, Resume(t, c, o), c)
  {}

  lemma CancellingLeads(t: Turn, c: nat, o: Outcome)
    requires c in t.calls && t.calls[c].Cancelling?
    ensures Leads(t, Resume(t, c, o), c)
  {
    hide Conclude, Leads;
    ConcludeLeads(t.(streamHandle := None), c);
    MuteLeads(t, t.(streamHandle := None), Conclude(t.(streamHandle := None), c), c);
  }

  lemma ResumeLeads(t: Turn, c: nat, o: Outcome)
    requires c in t.calls
    ensures Leads(t, Resume(t, c, o), c)
  {
    var at := t.calls[c];
    hide Leads, AfterPlain, PartialBlock;
    if at.Returned? {
      AfterPlainLeads(t, c, at.site, at.landed);
    } else if at.Settled? {
      PartialLeads(t, c);
    } else {
      hide Resume;
      if at.Ending? {
        EndingLeads(t, c, o);
      } else if at.Cancelling? {
        CancellingLeads(t, c, o);
      } else {
        WaitLeads(t, c, o);
      }
    }
  }

  /** At every step: when a terminal returns, a failure of the turn that nobody knows of yet is asked for again in a
      follow-up turn and is the run's error in the first; if there is none, and the user got something, the delivery is
      reported. At no other step is anything told. */
  lemma ReturnTells(t: Turn, e: Event, c: nat)
    requires Possible(t, e) && !IsOutput(e) && (if e.Resumes? then e.call == c else c == t.started)
    ensures Tells(t, Step(t, e), Returns(t, e, c))
  {
    hide CoalescedBlock, Resume;
    if e.Finalize? {
      CoalescedLeads(t.(started := t.started + 1), c);
      assert Mute(t, t.(started := t.started + 1));
      MuteLeads(t, t.(started := t.started + 1), Step(t, e), c);
    } else if e.Resumes? {
      ResumeLeads(t, c, e.outcome);
    }
  }

  // ------------------------------------------------------------------ what has reached the user

  /** A plain send, and a send or the end of a stream, came out fine somewhere along the run. */
  ghost predicate Lands(t: Turn, events: seq<Event>, plainly: bool)
    requires Legal(t, events)
    decreases |events|
  {
    events != [] && (LandsNow(t, events[0], plainly) || Lands(Step(t, events[0]), events[1..], plainly))
  }

  predicate LandsNow(t: Turn, e: Event, plainly: bool)
    requires Possible(t, e)
  {
    e.Resumes? && e.outcome == Fine && (t.calls[e.call].Sending? || (!plainly && t.calls[e.call].Ending?))
  }

  /** A gate that is shut stays so. */
  predicate StaysShut(t: Turn, u: Turn) {
    Sent(t) ==> Sent(u) && u.plain == t.plain && u.progressiveText == t.progressiveText
  }

  predicate SameReach(t: Turn, u: Turn) {
    && u.outputSentToUser == t.outputSentToUser && u.deliveredPlainFallback == t.deliveredPlainFallback
    && StaysShut(t, u)
  }

  lemma ConcludeReach(t: Turn, c: nat)
    ensures SameReach(t, Conclude(t, c))
  {
    hide Failed;
  }

  lemma CancelReach(t: Turn, c: nat)
    ensures SameReach(t, CancelBlock(t, c))
  {
    ConcludeReach(t, c);
    hide Conclude;
  }

  lemma EndReach(t: Turn, c: nat)
    ensures SameReach(t, EndBlock(t, c))
  {
    CancelReach(t, c);
    hide Blank, CancelBlock;
  }

  lemma SendPlainReach(t: Turn, c: nat, text: string, site: Site)
    ensures SameReach(t, SendPlain(t, c, text, site))
  {
    hide Blank;
  }

  lemma PartialReach(t: Turn, c: nat)
    ensures SameReach(t, PartialBlock(t, c))
  {
    EndReach(t, c);
    SendPlainReach(t, c, t.progressiveText, PartialWireDeath);
    hide Blank, EndBlock, SendPlain;
  }

  lemma FailureReach(t: Turn, c: nat)
    ensures SameReach(t, FailureBlock(t, c)) && SameReach(t, SettleBlock(t, c))
  {
    SendPlainReach(t, c, t.streamFailureFinalText, TotalFailure);
    assert SameReach(t, SettleBlock(t, c));
    hide SendPlain, SettleBlock;
  }

  lemma CoalescedReach(t: Turn, c: nat)
    ensures SameReach(t, CoalescedBlock(t, c))
  {
    FailureReach(t, c);
    SendPlainReach(t, c, Join(t.streamDiedCoalesced.GetOr([])), Coalesced);
    hide SendPlain, FailureBlock;
  }

  lemma AfterPlainReach(t: Turn, c: nat, site: Site, landed: bool)
    ensures SameReach(t, AfterPlain(t, c, site, landed))
  {
    hide FailureBlock, SettleBlock, EndBlock, CancelBlock;
    var more := t.(streamDeliveryFailed := t.streamDeliveryFailed || !landed);
    var less := t.(streamDeliveryFailed := t.streamDeliveryFailed && !landed);
    match site {
      case Coalesced => FailureReach(more.(streamDiedCoalesced := None), c);
      case TotalFailure => FailureReach(less, c);
      case PartialWireDeath => EndReach(more, c);
      case _ => CancelReach(less, c);
    }
  }

  lemma EndingReach(t: Turn, c: nat, o: Outcome)
    requires c in t.calls && t.calls[c].Ending?
    ensures var u := Resume(t, c, o);
            && u.outputSentToUser == (t.outputSentToUser || o == Fine)
            && u.deliveredPlainFallback == t.deliveredPlainFallback && StaysShut(t, u)
  {
    hide CancelBlock, SendPlain;
    if o == Fine {
      CancelReach(t.(outputSentToUser := true), c);
    } else {
      SendPlainReach(t.(streamDeliveryFailed := true, streamFailureFinalText := t.progressiveText), c,
                     t.progressiveText, if o == Reported then EndFailed else EndThrew);
    }
  }

  lemma CancellingReach(t: Turn, c: nat, o: Outcome)
    requires c in t.calls && t.calls[c].Cancelling?
    ensures SameReach(t, Resume(t, c, o))
  {
    ConcludeReach(t.(streamHandle := None), c);
    hide Conclude;
  }

  lemma WaitReach(t: Turn, c: nat, o: Outcome)
    requires c in t.calls && (t.calls[c].Sending? || t.calls[c].Settling?)
    ensures var (u, at) := (Resume(t, c, o), t.calls[c]);
            && u.outputSentToUser == (t.outputSentToUser || (o == Fine && at.Sending?))
            && u.deliveredPlainFallback == (t.deliveredPlainFallback || (o == Fine && at.Sending?))
            && StaysShut(t, u)
  {
    hide AfterPlain, PartialBlock, CancelBlock, Conclude, SendPlain;
  }

  lemma ResumeReach(t: Turn, c: nat, o: Outcome)
    requires c in t.calls
    ensures var (u, at) := (Resume(t, c, o), t.calls[c]);
            && u.outputSentToUser == (t.outputSentToUser || (o == Fine && (at.Sending? || at.Ending?)))
            && u.deliveredPlainFallback == (t.deliveredPlainFallback || (o == Fine && at.Sending?))
            && StaysShut(t, u)
  {
    var at := t.calls[c];
    hide AfterPlain, PartialBlock;
    if at.Returned? {
      AfterPlainReach(t, c, at.site, at.landed);
    } else if at.Settled? {
      PartialReach(t, c);
    } else {
      hide Resume;
      if at.Cancelling? {
        CancellingReach(t, c, o);
      } else if at.Ending? {
        EndingReach(t, c, o);
      } else {
        WaitReach(t, c, o);
      }
    }
  }

  lemma StepReach(t: Turn, e: Event)
    requires Possible(t, e) && !IsOutput(e)
    ensures var u := Step(t, e);
            && (u.deliveredPlainFallback <==> t.deliveredPlainFallback || LandsNow(t, e, true))
            && (u.outputSentToUser <==> t.outputSentToUser || LandsNow(t, e, false))
            && StaysShut(t, u)
  {
    hide Resume, CoalescedBlock;
    if e.Finalize? {
      CoalescedReach(t.(started := t.started + 1), t.started);
    } else if e.Resumes? {
      ResumeReach(t, e.call, e.outcome);
    }
  }

  /** Over any run without output events: the turn counts as delivered plainly, and as sent to the user, if and only if
      it did before, or a plain send, or for the latter the end of a stream too, came out fine. */
  lemma {:induction false} ReachedExactly(t: Turn, events: seq<Event>)
    requires Legal(t, events) && forall e :: e in events ==> !IsOutput(e)
    ensures var u := Exec(t, events);
            && (u.deliveredPlainFallback <==> t.deliveredPlainFallback || Lands(t, events, true))
            && (u.outputSentToUser <==> t.outputSentToUser || Lands(t, events, false))
    decreases |events|
  {
    hide Step, Possible, LandsNow, IsOutput;
    if events == [] {
    } else {
      StepReach(t, events[0]);
      ReachedExactly(Step(t, events[0]), events[1..]);
    }
  }

  // ------------------------------------------------------------------ from one turn to the next

  /** What belongs to one turn. */
  datatype PerTurn = PerTurn(
    attempted: bool, delivered: bool, handled: bool, failed: bool, sent: bool, hadError: bool,
    failedText: string, partial: string, buffer: Option<seq<string>>)

  function TurnPart(t: Turn): PerTurn {
    PerTurn(t.terminalPlainAttempted, t.deliveredPlainFallback, t.terminalFailureHandled, t.streamDeliveryFailed,
            t.outputSentToUser, t.hadError, t.streamFailureFinalText, t.progressiveText, t.streamDiedCoalesced)
  }

  /** The first output of a new turn finds everything as in a new dispatcher, the stream and the calls in flight apart;
      any further one changes nothing. */
  lemma TurnStartsClean(t: Turn, seqNow: nat)
    ensures var u := Step(t, OutputArrives);
            && u.deliveryStateTurnSeq == t.userTurnSeq
            && TurnPart(u) == TurnPart(if t.userTurnSeq == t.deliveryStateTurnSeq then t else NewTurn(seqNow))
            && u.streamHandle == t.streamHandle && u.calls == t.calls && u.plain == t.plain && u.ends == t.ends
            && u.cancels == t.cancels && u.retries == t.retries && u.deliveries == t.deliveries
            && Step(u, OutputArrives) == u
  {}
}
