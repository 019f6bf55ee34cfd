/** What becomes of an unfinished stream when the terminals of its turn run, in any interleaving: a draft is ended with
    its text, any other stream is cancelled, and a draft whose wire is dead goes out plainly. */
module TurnStreams {
  import opened Options
  import opened Text
  import opened TurnModel
  import opened TurnTheorems
  import opened TurnAnswers
  import opened TurnTexts

  /** The user has seen part of an answer on a stream that is not finished, and nothing else. */
  predicate Draft(t: Turn) {
    t.streamHandle.Some? && !t.outputSentToUser && !Blank(t.progressiveText)
  }

  /** No plain send has started, and none is owed. */
  predicate Clear(t: Turn) {
    !Sent(t) && !OwesBuffer(t) && !OwesFinal(t) && !OwesPartial(t)
  }

  /** Neither is owed while the stream, if it is there, is `h` and its wire is alive. */
  predicate Calm(t: Turn, h: nat) {
    Clear(t) && h !in t.cancelled && (t.streamHandle.None? || t.streamHandle == Some(h))
  }

  /** Where a call may be that has not come to the stream. */
  predicate Early(at: Await, h: nat) {
    at == Returned(TotalFailure, false) || at == Settling(h) || at == Settled
  }

  // ------------------------------------------------------------------ the steps of a call while all is calm

  lemma CalmStart(t: Turn, c: nat, h: nat)
    requires Calm(t, h)
    ensures var u := CoalescedBlock(t, c);
            c in u.calls && Early(u.calls[c], h) && u == Suspend(t, c, u.calls[c])
  {
    hide Blank;
  }

  lemma EarlyResumes(t: Turn, c: nat, o: Outcome, h: nat)
    requires Calm(t, h) && c in t.calls && Early(t.calls[c], h)
    ensures var u := Resume(t, c, o);
            if t.calls[c] == Settled then u == EndBlock(t, c)
            else c in u.calls && Early(u.calls[c], h) && u == Suspend(t, c, u.calls[c])
  {
    hide Blank, EndBlock;
  }

  /** Fields that neither the return of a call nor a suspension touches. */
  predicate SameStream(t: Turn, u: Turn) {
    && u.streamHandle == t.streamHandle && u.ends == t.ends && u.cancels == t.cancels
    && u.outputSentToUser == t.outputSentToUser && SameText(t, u)
  }

  predicate SameText(t: Turn, u: Turn) {
    && u.plain == t.plain && u.progressiveText == t.progressiveText && u.cancelled == t.cancelled
    && u.streamDiedCoalesced == t.streamDiedCoalesced && u.streamDeliveryFailed == t.streamDeliveryFailed
    && u.streamFailureFinalText == t.streamFailureFinalText && u.terminalPlainAttempted == t.terminalPlainAttempted
    && u.deliveredPlainFallback == t.deliveredPlainFallback
  }

  lemma SameTextCalm(t: Turn, u: Turn, h: nat)
    requires Calm(t, h) && SameText(t, u) && (u.streamHandle == t.streamHandle || u.streamHandle.None?)
    ensures Calm(u, h)
  {
    hide Blank;
  }

  lemma ConcludeSame(t: Turn, c: nat)
    ensures SameStream(t, Conclude(t, c)) && Conclude(t, c).calls == t.calls - {c}
  {
    hide Failed, SameStream;
    ReturnSame(t, t.calls - {c}, true, t.retries + 1, t.hadError, t.deliveries);
    ReturnSame(t, t.calls - {c}, true, t.retries, true, t.deliveries);
    ReturnSame(t, t.calls - {c}, t.terminalFailureHandled, t.retries, t.hadError, t.deliveries + 1);
    ReturnSame(t, t.calls - {c}, t.terminalFailureHandled, t.retries, t.hadError, t.deliveries);
  }

  lemma ReturnSame(t: Turn, calls: map<nat, Await>, handled: bool, retries: nat, hadError: bool, deliveries: nat)
    ensures SameStream(t, t.(calls := calls, terminalFailureHandled := handled, retries := retries,
                             hadError := hadError, deliveries := deliveries))
  {}

  /** What the end block does to the stream: a draft is ended, another one cancelled. */
  lemma DraftEnds(t: Turn, c: nat)
    requires Draft(t)
    ensures var u := EndBlock(t, c);
            && SameText(t, u) && u.outputSentToUser == t.outputSentToUser
            && u.streamHandle.None? && u.ends == t.ends + [t.progressiveText] && u.cancels == t.cancels
            && u.calls == t.calls[c := Ending]
  {
    hide Blank;
  }

  lemma OtherIsCancelled(t: Turn, c: nat)
    requires !Draft(t) && t.streamHandle.Some?
    ensures var u := EndBlock(t, c);
            && SameText(t, u) && u.outputSentToUser == t.outputSentToUser
            && u.streamHandle == t.streamHandle && u.ends == t.ends && u.cancels == t.cancels + 1
            && u.calls == t.calls[c := Cancelling]
  {
    hide Blank;
  }

  lemma NoneConcludes(t: Turn, c: nat)
    requires t.streamHandle.None?
    ensures SameStream(t, EndBlock(t, c)) && EndBlock(t, c).calls == t.calls - {c}
  {
    ConcludeSame(t, c);
    hide Blank, Conclude, SameStream;
  }

  /** The end of the draft comes out fine, or the text goes out plainly. */
  lemma EndingIs(t: Turn, c: nat, o: Outcome)
    requires c in t.calls && t.calls[c].Ending? && t.streamHandle.None? && !Sent(t) && !Blank(t.progressiveText)
    ensures var u := Resume(t, c, o);
            && u.streamHandle.None? && u.ends == t.ends && u.cancels == t.cancels
            && (o == Fine ==> SameText(t, u) && u.outputSentToUser && u.calls == t.calls - {c})
            && (o != Fine ==> Sent(u) && u.plain == t.plain + [t.progressiveText]
                              && u.progressiveText == t.progressiveText)
  {
    hide Blank;
    ConcludeSame(t.(outputSentToUser := true), c);
    hide Conclude;
  }

  lemma CancellingIs(t: Turn, c: nat, o: Outcome)
    requires c in t.calls && t.calls[c].Cancelling?
    ensures var u := Resume(t, c, o);
            && SameText(t, u) && u.streamHandle.None? && u.ends == t.ends && u.cancels == t.cancels
            && u.outputSentToUser == t.outputSentToUser && u.calls == t.calls - {c}
  {
    ConcludeSame(t.(streamHandle := None), c);
    hide Conclude;
  }

  /** No stream appears, ends or is cancelled any more. */
  predicate StaysGone(t: Turn, u: Turn) {
    t.streamHandle.None? ==> u.streamHandle.None? && u.ends == t.ends && u.cancels == t.cancels
  }

  lemma EndGone(t: Turn, c: nat)
    ensures StaysGone(t, EndBlock(t, c)) && StaysGone(t, CancelBlock(t, c)) && StaysGone(t, Conclude(t, c))
  {
    ConcludeSame(t, c);
    hide Conclude, Blank;
  }

  lemma SendPlainGone(t: Turn, c: nat, text: string, site: Site)
    ensures StaysGone(t, SendPlain(t, c, text, site))
  {
    hide Blank;
  }

  lemma PartialGone(t: Turn, c: nat)
    ensures StaysGone(t, PartialBlock(t, c))
  {
    EndGone(t, c);
    SendPlainGone(t, c, t.progressiveText, PartialWireDeath);
    hide EndBlock, SendPlain, Blank;
  }

  lemma FailureGone(t: Turn, c: nat)
    ensures StaysGone(t, FailureBlock(t, c)) && StaysGone(t, SettleBlock(t, c))
  {
    SendPlainGone(t, c, t.streamFailureFinalText, TotalFailure);
    assert StaysGone(t, SettleBlock(t, c));
    hide SendPlain, SettleBlock;
  }

  lemma CoalescedGone(t: Turn, c: nat)
    ensures StaysGone(t, CoalescedBlock(t, c))
  {
    FailureGone(t, c);
    SendPlainGone(t, c, Join(t.streamDiedCoalesced.GetOr([])), Coalesced);
    hide SendPlain, FailureBlock;
  }

  lemma AfterPlainGone(t: Turn, c: nat, site: Site, landed: bool)
    ensures StaysGone(t, AfterPlain(t, c, site, landed))
  {
    hide FailureBlock, SettleBlock, EndBlock, CancelBlock;
    var more := t.(streamDeliveryFailed := t.streamDeliveryFailed || !landed);
    var less := t.(streamDeliveryFailed := t.streamDeliveryFailed && !landed);
    match site {
      case Coalesced => FailureGone(more.(streamDiedCoalesced := None), c);
      case TotalFailure => FailureGone(less, c);
      case PartialWireDeath => EndGone(more, c);
      case _ => EndGone(less, c);
    }
  }

  lemma EndingGone(t: Turn, c: nat, o: Outcome)
    requires c in t.calls && t.calls[c].Ending?
    ensures StaysGone(t, Resume(t, c, o))
  {
    hide CancelBlock, SendPlain;
    if o == Fine {
      EndGone(t.(outputSentToUser := true), c);
    } else {
      SendPlainGone(t.(streamDeliveryFailed := true, streamFailureFinalText := t.progressiveText), c,
                    t.progressiveText, if o == Reported then EndFailed else EndThrew);
    }
  }

  lemma WaitGone(t: Turn, c: nat, o: Outcome)
    requires c in t.calls && (t.calls[c].Sending? || t.calls[c].Settling? || t.calls[c].Cancelling?)
    ensures StaysGone(t, Resume(t, c, o))
  {
    EndGone(t.(streamHandle := None), c);
    hide Conclude;
  }

  lemma ResumeGone(t: Turn, c: nat, o: Outcome)
    requires c in t.calls
    ensures StaysGone(t, Resume(t, c, o))
  {
    var at := t.calls[c];
    hide AfterPlain, PartialBlock, StaysGone;
    if at.Returned? {
      AfterPlainGone(t, c, at.site, at.landed);
    } else if at.Settled? {
      PartialGone(t, c);
    } else {
      hide Resume;
      if at.Ending? {
        EndingGone(t, c, o);
      } else {
        WaitGone(t, c, o);
      }
    }
  }

  lemma StepGone(t: Turn, e: Event)
    requires Possible(t, e) && !IsOutput(e)
    ensures StaysGone(t, Step(t, e))
  {
    hide Resume, CoalescedBlock;
    if e.Finalize? {
      CoalescedGone(t.(started := t.started + 1), t.started);
    } else if e.Resumes? {
      ResumeGone(t, e.call, e.outcome);
    }
  }

  // ------------------------------------------------------------------ the stream between any two moments

  /** Where the calls are that started as number `from` or later: before the stream, or one ends it, or some cancel. */
  ghost predicate AllAt(u: Turn, from: nat, h: nat, ending: Option<nat>, cancelling: bool) {
    forall c :: from <= c && c in u.calls ==>
      Early(u.calls[c], h) || (u.calls[c].Ending? && ending == Some(c)) || (u.calls[c].Cancelling? && cancelling)
  }

  /** Nobody has come to the stream. */
  ghost predicate Untouched(t: Turn, u: Turn, from: nat, h: nat) {
    && Calm(u, h) && u.plain == t.plain && u.progressiveText == t.progressiveText
    && u.streamHandle == t.streamHandle && u.outputSentToUser == t.outputSentToUser
    && u.ends == t.ends && u.cancels == t.cancels && AllAt(u, from, h, None, false)
  }

  /** The draft is being ended by `c`. */
  ghost predicate BeingEnded(t: Turn, u: Turn, from: nat, h: nat, c: nat) {
    && Draft(t) && Calm(u, h) && u.plain == t.plain && u.progressiveText == t.progressiveText
    && u.streamHandle.None? && !u.outputSentToUser
    && u.ends == t.ends + [t.progressiveText] && u.cancels == t.cancels
    && from <= c && c in u.calls && u.calls[c].Ending? && AllAt(u, from, h, Some(c), false)
  }

  /** The draft has been ended, and that was fine. */
  ghost predicate Ended(t: Turn, u: Turn, from: nat, h: nat) {
    && Draft(t) && Calm(u, h) && u.plain == t.plain && u.progressiveText == t.progressiveText
    && u.streamHandle.None? && u.outputSentToUser
    && u.ends == t.ends + [t.progressiveText] && u.cancels == t.cancels && AllAt(u, from, h, None, false)
  }

  /** It has been ended, that was not fine, and its text has gone out plainly. */
  ghost predicate SentInstead(t: Turn, u: Turn) {
    && Draft(t) && u.streamHandle.None? && u.ends == t.ends + [t.progressiveText] && u.cancels == t.cancels
    && Sent(u) && u.plain == t.plain + [t.progressiveText]
  }

  /** The stream is no draft, and some call has started to cancel it. */
  ghost predicate Cancelled(t: Turn, u: Turn, from: nat, h: nat) {
    && !Draft(t) && t.streamHandle.Some? && Calm(u, h) && u.plain == t.plain && u.progressiveText == t.progressiveText
    && (u.streamHandle.None? || u.streamHandle == t.streamHandle) && u.outputSentToUser == t.outputSentToUser
    && u.ends == t.ends && u.cancels > t.cancels && AllAt(u, from, h, None, true)
  }

  ghost predicate Streaming(t: Turn, u: Turn, from: nat, h: nat) {
    || Untouched(t, u, from, h)
    || (exists c :: BeingEnded(t, u, from, h, c))
    || Ended(t, u, from, h)
    || SentInstead(t, u)
    || Cancelled(t, u, from, h)
  }

  /** A call is suspended, in `u` or anew. */
  lemma SuspendedAt(u: Turn, c: nat, at: Await, from: nat, h: nat, ending: Option<nat>, cancelling: bool)
    requires AllAt(u, from, h, ending, cancelling) && Early(at, h)
    requires ending.Some? ==> ending.value != c
    ensures AllAt(Suspend(u, c, at), from, h, ending, cancelling)
  {}

  lemma GoneAt(u: Turn, v: Turn, c: nat, from: nat, h: nat, ending: Option<nat>, cancelling: bool)
    requires AllAt(u, from, h, ending, cancelling) && v.calls == u.calls - {c}
    ensures AllAt(v, from, h, ending, cancelling)
    ensures ending == Some(c) ==> AllAt(v, from, h, None, cancelling)
  {}

  /** A call that has not come to the stream takes a step, or a new one starts: it is suspended, or comes to it. */
  lemma EarlyStep(t: Turn, u: Turn, c: nat, at: Await, from: nat, h: nat)
    requires Streaming(t, u, from, h) && !SentInstead(t, u) && Early(at, h)
    requires c in u.calls ==> Early(u.calls[c], h)
    ensures Streaming(t, Suspend(u, c, at), from, h)
  {
    var v := Suspend(u, c, at);
    hide Early, Blank;
    SameTextCalm(u, v, h);
    hide Calm, Draft;
    if Untouched(t, u, from, h) {
      SuspendedAt(u, c, at, from, h, None, false);
    } else if Ended(t, u, from, h) {
      SuspendedAt(u, c, at, from, h, None, false);
    } else if Cancelled(t, u, from, h) {
      SuspendedAt(u, c, at, from, h, None, true);
    } else {
      var e :| BeingEnded(t, u, from, h, e);
      assert e != c by {
        EndingIsNotEarly(u, e, h);
      }
      SuspendedAt(u, c, at, from, h, Some(e), false);
      assert BeingEnded(t, v, from, h, e);
    }
  }

  lemma EndingIsNotEarly(u: Turn, c: nat, h: nat)
    requires c in u.calls && u.calls[c].Ending?
    ensures !Early(u.calls[c], h)
  {}

  // ------------------------------------------------------------------ each step

  lemma UntouchedSettled(t: Turn, u: Turn, c: nat, from: nat, h: nat)
    requires Untouched(t, u, from, h) && from <= c && c in u.calls && u.calls[c] == Settled
    ensures Streaming(t, EndBlock(u, c), from, h)
  {
    var v := EndBlock(u, c);
    hide EndBlock, Blank;
    if Draft(u) {
      DraftEnds(u, c);
      SameTextCalm(u, v, h);
      hide Calm, Draft, Early, SameText;
      assert BeingEnded(t, v, from, h, c);
    } else if u.streamHandle.Some? {
      OtherIsCancelled(u, c);
      SameTextCalm(u, v, h);
      hide Calm, Draft, Early, SameText;
    } else {
      NoneConcludes(u, c);
      SameTextCalm(u, v, h);
      GoneAt(u, v, c, from, h, None, false);
      hide Calm, Draft, Early, SameText, AllAt;
    }
  }

  lemma TouchedSettled(t: Turn, u: Turn, c: nat, from: nat, h: nat)
    requires Streaming(t, u, from, h) && !SentInstead(t, u) && !Untouched(t, u, from, h) && u.streamHandle.None?
    requires from <= c && c in u.calls && u.calls[c] == Settled
    ensures Streaming(t, EndBlock(u, c), from, h)
  {
    var v := EndBlock(u, c);
    hide EndBlock, Blank;
    NoneConcludes(u, c);
    SameTextCalm(u, v, h);
    hide Calm, Draft, Early, SameText;
    if Ended(t, u, from, h) {
      GoneAt(u, v, c, from, h, None, false);
    } else if Cancelled(t, u, from, h) {
      GoneAt(u, v, c, from, h, None, true);
    } else {
      var e :| BeingEnded(t, u, from, h, e);
      GoneAt(u, v, c, from, h, Some(e), false);
      assert BeingEnded(t, v, from, h, e);
    }
  }

  lemma CancelledSettled(t: Turn, u: Turn, c: nat, from: nat, h: nat)
    requires Cancelled(t, u, from, h) && u.streamHandle.Some? && from <= c && c in u.calls && u.calls[c] == Settled
    ensures Streaming(t, EndBlock(u, c), from, h)
  {
    var v := EndBlock(u, c);
    assert !Draft(u);
    hide EndBlock, Blank;
    OtherIsCancelled(u, c);
    SameTextCalm(u, v, h);
    hide Calm, Draft, Early, SameText;
  }

  lemma EndingStep(t: Turn, u: Turn, c: nat, o: Outcome, from: nat, h: nat)
    requires BeingEnded(t, u, from, h, c)
    ensures Streaming(t, Resume(u, c, o), from, h)
  {
    EndingIs(u, c, o);
    hide Resume, Blank;
    var v := Resume(u, c, o);
    if o == Fine {
      SameTextCalm(u, v, h);
      GoneAt(u, v, c, from, h, Some(c), false);
      hide Calm, Early, SameText, AllAt;
    } else {
      hide Calm, Early, AllAt;
    }
  }

  lemma CancellingStep(t: Turn, u: Turn, c: nat, o: Outcome, from: nat, h: nat)
    requires Cancelled(t, u, from, h) && c in u.calls && u.calls[c].Cancelling?
    ensures Streaming(t, Resume(u, c, o), from, h)
  {
    CancellingIs(u, c, o);
    hide Resume, Blank;
    var v := Resume(u, c, o);
    SameTextCalm(u, v, h);
    GoneAt(u, v, c, from, h, None, true);
    hide Calm, Draft, Early, SameText, AllAt;
  }

  lemma ResumeStep(t: Turn, u: Turn, c: nat, o: Outcome, from: nat, h: nat)
    requires Streaming(t, u, from, h) && !SentInstead(t, u) && from <= c && c in u.calls
    ensures Streaming(t, Resume(u, c, o), from, h)
  {
    hide Streaming, Resume, EndBlock, Blank, Draft;
    PlaceOf(t, u, c, from, h);
    if Early(u.calls[c], h) {
      EarlyResumes(u, c, o, h);
      if u.calls[c] == Settled {
        if Untouched(t, u, from, h) {
          UntouchedSettled(t, u, c, from, h);
        } else if u.streamHandle.None? {
          TouchedSettled(t, u, c, from, h);
        } else {
          CancelledSettled(t, u, c, from, h);
        }
      } else {
        EarlyStep(t, u, c, Resume(u, c, o).calls[c], from, h);
      }
    } else if u.calls[c].Ending? {
      EndingStep(t, u, c, o, from, h);
    } else {
      CancellingStep(t, u, c, o, from, h);
    }
  }

  lemma PlaceOf(t: Turn, u: Turn, c: nat, from: nat, h: nat)
    requires Streaming(t, u, from, h) && !SentInstead(t, u) && from <= c && c in u.calls
    ensures Calm(u, h)
    ensures Early(u.calls[c], h) || (u.calls[c].Ending? && BeingEnded(t, u, from, h, c))
            || (u.calls[c].Cancelling? && Cancelled(t, u, from, h))
    ensures !Untouched(t, u, from, h) && u.streamHandle.Some? ==> Cancelled(t, u, from, h)
  {
    hide Calm, Early, Draft;
  }

  lemma FinalizeStep(t: Turn, u: Turn, from: nat, h: nat)
    requires Streaming(t, u, from, h) && !SentInstead(t, u) && from <= u.started
    requires forall c :: c in u.calls ==> c < u.started
    ensures Streaming(t, Step(u, Finalize), from, h)
  {
    var (p, c) := (u.(started := u.started + 1), u.started);
    StartedStreaming(t, u, p, from, h);
    CalmOf(t, p, from, h);
    CalmStart(p, c, h);
    hide CoalescedBlock, Streaming, Early;
    EarlyStep(t, p, c, CoalescedBlock(p, c).calls[c], from, h);
  }

  lemma CalmOf(t: Turn, u: Turn, from: nat, h: nat)
    requires Streaming(t, u, from, h) && !SentInstead(t, u)
    ensures Calm(u, h)
  {
    hide Calm, Early, Draft;
  }

  /** A terminal is counted, a turn is piped, or the wire of another stream dies. */
  lemma StartedStreaming(t: Turn, u: Turn, p: Turn, from: nat, h: nat)
    requires Streaming(t, u, from, h) && !SentInstead(t, u) && h !in p.cancelled
    requires p == u.(started := p.started, userTurnSeq := p.userTurnSeq, cancelled := p.cancelled)
    ensures Streaming(t, p, from, h) && !SentInstead(t, p)
  {
    CalmOf(t, u, from, h);
    assert Calm(p, h);
    hide Calm, Early, Draft, Blank;
    if c :| BeingEnded(t, u, from, h, c) {
      assert BeingEnded(t, p, from, h, c);
    }
  }

  lemma StepStreams(t: Turn, u: Turn, e: Event, from: nat, h: nat)
    requires Streaming(t, u, from, h) && Numbered(u) && from <= u.started
    requires Possible(u, e) && Since(e, from) && e != WireDies(h)
    ensures Streaming(t, Step(u, e), from, h)
  {
    if SentInstead(t, u) {
      StepGone(u, e);
      StepReach(u, e);
      hide Step, Draft, Streaming;
      assert SentInstead(t, Step(u, e));
      InsteadStreams(t, Step(u, e), from, h);
    } else if e.Finalize? {
      hide Streaming, Step, SentInstead;
      FinalizeStep(t, u, from, h);
    } else if e.Resumes? {
      hide Streaming, Resume, SentInstead;
      ResumeStep(t, u, e.call, e.outcome, from, h);
    } else {
      CalmOf(t, u, from, h);
      hide Streaming, SentInstead;
      StartedStreaming(t, u, Step(u, e), from, h);
    }
  }

  lemma InsteadStreams(t: Turn, u: Turn, from: nat, h: nat)
    requires SentInstead(t, u)
    ensures Streaming(t, u, from, h)
  {}

  lemma {:induction false} RunStreams(t: Turn, u: Turn, events: seq<Event>, from: nat, h: nat)
    requires Streaming(t, u, from, h) && Numbered(u) && from <= u.started
    requires Legal(u, events) && forall e :: e in events ==> Since(e, from) && e != WireDies(h)
    ensures Streaming(t, Exec(u, events), from, h)
    decreases |events|
  {
    hide Streaming, Possible, Step, Since;
    if events == [] {
    } else {
      StepStreams(t, u, events[0], from, h);
      StepNumbers(u, events[0]);
      RunStreams(t, Step(u, events[0]), events[1..], from, h);
    }
  }

  // ------------------------------------------------------------------ the theorem

  /** A terminal starts in a turn in which nothing has been sent plainly or is owed, with a stream whose wire stays
      alive, and any number of terminals after it, in any interleaving without an output event. When all have
      returned: if the stream was a draft, it has been ended with its text, once, and never cancelled, and either
      that reached the user or the text has been sent plainly; if not, it has been cancelled and neither ended nor
      sent. Without a stream, nothing is ended, cancelled or sent. */
  lemma DraftIsEnded(t: Turn, events: seq<Event>, h: nat)
    requires Numbered(t) && Clear(t) && h !in t.cancelled && (t.streamHandle.None? || t.streamHandle == Some(h))
    requires Legal(t, [Finalize] + events)
    requires forall e :: e in events ==> Since(e, t.started) && e != WireDies(h)
    requires forall c :: c in Exec(t, [Finalize] + events).calls ==> c < t.started
    ensures var u := Exec(t, [Finalize] + events);
            if Draft(t) then
              && u.ends == t.ends + [t.progressiveText] && u.cancels == t.cancels
              && ((u.outputSentToUser && u.plain == t.plain) || u.plain == t.plain + [t.progressiveText])
            else
              && u.ends == t.ends && u.plain == t.plain
              && (if t.streamHandle.Some? then u.cancels > t.cancels else u.cancels == t.cancels)
  {
    hide Legal, Exec, Step, Since, Blank, Quiet, Draft, Streaming, SentInstead, Calm;
    FirstEvent(t, Finalize, events);
    StepNumbers(t, Finalize);
    StartStreams(t, h);
    FinalizeStep(t, t, t.started, h);
    RunStreams(t, Step(t, Finalize), events, t.started, h);
    SettlesQuiet(t, events);
    StreamedOut(t, Exec(t, [Finalize] + events), t.started, h);
  }

  lemma StartStreams(t: Turn, h: nat)
    requires Numbered(t) && Clear(t) && h !in t.cancelled && (t.streamHandle.None? || t.streamHandle == Some(h))
    ensures Streaming(t, t, t.started, h) && !SentInstead(t, t)
  {
    hide Blank;
  }

  lemma StreamedOut(t: Turn, u: Turn, from: nat, h: nat)
    requires Streaming(t, u, from, h) && Quiet(u) && forall c :: c in u.calls ==> c < from
    ensures if Draft(t) then
              && u.ends == t.ends + [t.progressiveText] && u.cancels == t.cancels
              && ((u.outputSentToUser && u.plain == t.plain) || u.plain == t.plain + [t.progressiveText])
            else
              && u.ends == t.ends && u.plain == t.plain
              && (if t.streamHandle.Some? then u.cancels > t.cancels else u.cancels == t.cancels)
  {
    hide Blank, Early;
  }

  // ------------------------------------------------------------------ a draft whose wire is dead

  /** The wire is dead and nobody has noticed, or the stream is gone, and until a plain send starts one is owed. */
  ghost predicate Dying(t: Turn, u: Turn, from: nat, h: nat) {
    && u.ends == t.ends && u.cancels == t.cancels
    && if u.streamHandle.Some? then
         && u.streamHandle == Some(h) && h in u.cancelled && !Sent(u)
         && u.streamDiedCoalesced.None? && !u.streamDeliveryFailed && !Blank(u.progressiveText)
         && forall c :: from <= c && c in u.calls ==> u.calls[c] == Settling(h)
       else Sent(u)
            || (&& u.streamDiedCoalesced == Some([]) && !u.streamDeliveryFailed && !Blank(u.progressiveText)
                && forall c :: from <= c && c in u.calls ==> u.calls[c] == Settling(h) || u.calls[c] == Settled)
  }

  lemma DyingStarts(t: Turn, u: Turn, c: nat, from: nat, h: nat)
    requires Dying(t, u, from, h) && !(u.streamHandle.None? && Sent(u))
    ensures Dying(t, CoalescedBlock(u, c), from, h)
  {
    hide Blank;
  }

  lemma DyingResumes(t: Turn, u: Turn, c: nat, o: Outcome, from: nat, h: nat)
    requires Dying(t, u, from, h) && !(u.streamHandle.None? && Sent(u)) && from <= c && c in u.calls
    ensures Dying(t, Resume(u, c, o), from, h)
  {
    hide Blank;
  }

  lemma StepDies(t: Turn, u: Turn, e: Event, from: nat, h: nat)
    requires Dying(t, u, from, h) && Possible(u, e) && Since(e, from)
    ensures Dying(t, Step(u, e), from, h)
  {
    if u.streamHandle.None? && Sent(u) {
      hide Step;
      StepGone(u, e);
      StepReach(u, e);
    } else if e.Finalize? {
      var p := u.(started := u.started + 1);
      assert Dying(t, p, from, h);
      hide CoalescedBlock, Dying;
      DyingStarts(t, p, u.started, from, h);
    } else if e.Resumes? {
      hide Resume, Dying;
      DyingResumes(t, u, e.call, e.outcome, from, h);
    } else {
      hide Blank;
    }
  }

  lemma {:induction false} RunDies(t: Turn, u: Turn, events: seq<Event>, from: nat, h: nat)
    requires Dying(t, u, from, h) && Legal(u, events) && forall e :: e in events ==> Since(e, from)
    ensures Dying(t, Exec(u, events), from, h)
    decreases |events|
  {
    hide Dying, Possible, Step, Since;
    if events == [] {
    } else {
      StepDies(t, u, events[0], from, h);
      RunDies(t, Step(u, events[0]), events[1..], from, h);
    }
  }

  lemma DyingNow(t: Turn, h: nat)
    requires Numbered(t) && t.streamHandle == Some(h) && h in t.cancelled && !Sent(t)
    requires t.streamDiedCoalesced.None? && !t.streamDeliveryFailed && !Blank(t.progressiveText)
    ensures Dying(t, t, t.started, h) && Blank(Due(t))
  {}

  /** If the wire of an unfinished answer is dead when the first terminal starts, and nothing has failed or been sent
      plainly, the text goes out plainly, once, and the stream is neither ended nor cancelled. */
  lemma DeadDraftGoesPlain(t: Turn, events: seq<Event>, h: nat)
    requires Numbered(t) && t.streamHandle == Some(h) && h in t.cancelled && !Sent(t)
    requires t.streamDiedCoalesced.None? && !t.streamDeliveryFailed && !Blank(t.progressiveText)
    requires Legal(t, [Finalize] + events) && forall e :: e in events ==> Since(e, t.started)
    requires forall c :: c in Exec(t, [Finalize] + events).calls ==> c < t.started
    ensures var u := Exec(t, [Finalize] + events);
            u.plain == t.plain + [t.progressiveText] && u.ends == t.ends && u.cancels == t.cancels
  {
    DyingNow(t, h);
    assert Since(Finalize, t.started);
    hide Sent, OwesBuffer, OwesFinal, OwesPartial, OwesEnd, Possible, Numbered;
    hide Legal, Exec, Step, Since, Blank, Quiet, Dying, Due;
    FirstEvent(t, Finalize, events);
    StepDies(t, t, Finalize, t.started, h);
    RunDies(t, Step(t, Finalize), events, t.started, h);
    SettlesQuiet(t, events);
    DiedOut(t, Exec(t, [Finalize] + events), t.started, h);
    RightTextIsSent(t, events);
  }

  lemma DiedOut(t: Turn, u: Turn, from: nat, h: nat)
    requires Dying(t, u, from, h) && Quiet(u)
    ensures Sent(u) && u.ends == t.ends && u.cancels == t.cancels
  {
    hide Blank;
  }

  // ------------------------------------------------------------------ one terminal alone, past the settle

  /** Where the call `c` can be that went on from `t` past the settle, and what it has done to the stream. */
  predicate PastSettle(t: Turn, u: Turn, c: nat) {
    && u.progressiveText == t.progressiveText
    && if Draft(t) then
         && u.streamHandle.None? && u.ends == t.ends + [t.progressiveText] && u.cancels == t.cancels
         && if c !in u.calls then (u.outputSentToUser && u.plain == t.plain) || u.plain == t.plain + [t.progressiveText]
            else match u.calls[c]
                 case Ending => !Sent(u) && u.plain == t.plain
                 case Sending(site) =>
                   (site == EndFailed || site == EndThrew) && u.plain == t.plain + [t.progressiveText]
                 case Returned(site, _) =>
                   (site == EndFailed || site == EndThrew) && u.plain == t.plain + [t.progressiveText]
                 case _ => false
       else
         && u.ends == t.ends && u.plain == t.plain
         && u.cancels == t.cancels + (if t.streamHandle.Some? then 1 else 0)
         && (c in u.calls ==> u.calls[c].Cancelling?)
  }

  lemma PastEnding(t: Turn, u: Turn, c: nat, o: Outcome)
    requires PastSettle(t, u, c) && c in u.calls && u.calls[c].Ending?
    ensures PastSettle(t, Resume(u, c, o), c)
  {
    hide Blank;
    EndingIs(u, c, o);
    if o != Fine {
      var failed := u.(streamDeliveryFailed := true, streamFailureFinalText := u.progressiveText);
      SendPlainAt(failed, c, u.progressiveText, if o == Reported then EndFailed else EndThrew);
    }
    hide SendPlain, CancelBlock;
  }

  lemma PastSending(t: Turn, u: Turn, c: nat, o: Outcome)
    requires PastSettle(t, u, c) && c in u.calls && u.calls[c].Sending?
    ensures PastSettle(t, Resume(u, c, o), c)
  {
    hide Blank;
  }

  lemma PastReturned(t: Turn, u: Turn, c: nat, o: Outcome)
    requires PastSettle(t, u, c) && c in u.calls && u.calls[c].Returned?
    ensures PastSettle(t, Resume(u, c, o), c)
  {
    ConcludeSame(u.(streamDeliveryFailed := u.streamDeliveryFailed && !u.calls[c].landed), c);
    hide Blank, Conclude;
  }

  lemma PastCancelling(t: Turn, u: Turn, c: nat, o: Outcome)
    requires PastSettle(t, u, c) && c in u.calls && u.calls[c].Cancelling?
    ensures PastSettle(t, Resume(u, c, o), c)
  {
    CancellingIs(u, c, o);
    hide Blank, Resume;
  }

  lemma PastSettleStep(t: Turn, u: Turn, e: Event, c: nat)
    requires PastSettle(t, u, c) && Possible(u, e) && Alone(e, c)
    ensures PastSettle(t, Step(u, e), c)
  {
    if e.Resumes? {
      var at := u.calls[c];
      assert at.Ending? || at.Sending? || at.Returned? || at.Cancelling?;
      hide Resume, PastSettle;
      if at.Ending? {
        PastEnding(t, u, c, e.outcome);
      } else if at.Sending? {
        PastSending(t, u, c, e.outcome);
      } else if at.Returned? {
        PastReturned(t, u, c, e.outcome);
      } else {
        PastCancelling(t, u, c, e.outcome);
      }
    } else {
      hide Blank;
    }
  }

  lemma {:induction false} RunPastSettle(t: Turn, u: Turn, events: seq<Event>, c: nat)
    requires PastSettle(t, u, c) && Legal(u, events) && forall e :: e in events ==> Alone(e, c)
    ensures PastSettle(t, Exec(u, events), c)
    decreases |events|
  {
    hide PastSettle, Possible, Step, Alone;
    if events == [] {
    } else {
      PastSettleStep(t, u, events[0], c);
      RunPastSettle(t, Step(u, events[0]), events[1..], c);
    }
  }

  /** The call `c` goes on from the settle, nothing has been sent plainly and no partial text is due plainly, and it
      runs alone to its end: exactly if the stream is a draft then, it is ended with its text and not cancelled;
      exactly if there is a stream that is not one, it is cancelled, once, and not ended. */
  lemma EndedExactly(t: Turn, o: Outcome, events: seq<Event>, c: nat)
    requires c in t.calls && t.calls[c] == Settled && !Sent(t)
    requires NeedsPartialFallback(t) ==> Blank(t.progressiveText)
    requires Legal(t, [Resumes(c, o)] + events) && forall e :: e in events ==> Alone(e, c)
    requires c !in Exec(t, [Resumes(c, o)] + events).calls
    ensures var u := Exec(t, [Resumes(c, o)] + events);
            && (Draft(t) <==> u.ends == t.ends + [t.progressiveText] && u.cancels == t.cancels)
            && (!Draft(t) && t.streamHandle.Some? <==> u.ends == t.ends && u.cancels == t.cancels + 1)
            && (Draft(t) ==> (u.outputSentToUser && u.plain == t.plain) || u.plain == t.plain + [t.progressiveText])
            && (!Draft(t) ==> u.plain == t.plain)
  {
    FirstEvent(t, Resumes(c, o), events);
    var u := Step(t, Resumes(c, o));
    assert u == EndBlock(t, c);
    assert PastSettle(t, u, c) by {
      hide EndBlock, Step;
      if Draft(t) {
        DraftEnds(t, c);
      } else if t.streamHandle.Some? {
        OtherIsCancelled(t, c);
      } else {
        NoneConcludes(t, c);
      }
      hide Blank;
    }
    hide Step, EndBlock, Legal, Exec, Alone, Blank, Draft;
    RunPastSettle(t, u, events, c);
  }
}
