/** When a terminal that runs by itself takes its turn for failed. */
module TurnFailures {
  import opened Options
  import opened Text
  import opened TurnModel
  import opened TurnTheorems
  import opened TurnAnswers
  import opened TurnTexts

  /** There are buffered finals to send. */
  predicate HasFinals(t: Turn) {
    OwesBuffer(t) && !JoinsBlank(t)
  }

  /** Between `t` and `u` the turn has failed: nothing has landed plainly, and something was tried or was to be sent; or
      what has landed are the buffered finals, and another one had failed. */
  predicate HasFailed(t: Turn, u: Turn) {
    if u.deliveredPlainFallback then t.streamDeliveryFailed && HasFinals(t)
    else u.plain != t.plain || t.streamDeliveryFailed || OwesBuffer(t)
  }

  /** Where a terminal may be between two of its blocks. */
  predicate Midway(t: Turn, u: Turn) {
    && u.terminalFailureHandled == t.terminalFailureHandled && (u.deliveredPlainFallback ==> u.outputSentToUser)
    && if Sent(u) then
         && u.terminalPlainAttempted && u.plain != t.plain
         && (u.deliveredPlainFallback ==> u.streamDeliveryFailed == (t.streamDeliveryFailed && HasFinals(t)))
       else
         && u.plain == t.plain && !HasFinals(t)
         && u.streamDeliveryFailed == (t.streamDeliveryFailed || OwesBuffer(t))
  }

  /** What is known where a plain send has started. */
  predicate StartedAt(t: Turn, u: Turn, site: Site) {
    && u.terminalPlainAttempted && u.plain != t.plain && (site == Coalesced <==> HasFinals(t))
    && (site == Coalesced ==> u.streamDeliveryFailed == t.streamDeliveryFailed)
    && (site == PartialWireDeath ==> !u.streamDeliveryFailed)
  }

  predicate Place(t: Turn, u: Turn, at: Await) {
    match at
    case Sending(site) => StartedAt(t, u, site) && !u.deliveredPlainFallback
    case Returned(site, landed) =>
      && landed == u.deliveredPlainFallback && (u.deliveredPlainFallback ==> u.outputSentToUser)
      && if landed then StartedAt(t, u, site)
         else if u.terminalPlainAttempted then u.plain != t.plain
         else && u.plain == t.plain && !HasFinals(t) && (site == Coalesced || site == TotalFailure)
              && (if site == Coalesced then OwesBuffer(t) && u.streamDeliveryFailed == t.streamDeliveryFailed
                  else u.streamDeliveryFailed == (t.streamDeliveryFailed || OwesBuffer(t)))
    case Ending => Midway(t, u) && !u.deliveredPlainFallback && !Blank(u.progressiveText)
    case _ => Midway(t, u)
  }

  /** The call `c` is underway from `t`, or has returned and judged its turn. */
  predicate Judges(t: Turn, u: Turn, c: nat) {
    if c in u.calls then u.terminalFailureHandled == t.terminalFailureHandled && Place(t, u, u.calls[c])
    else Asks(t, u) <==> !t.terminalFailureHandled && HasFailed(t, u)
  }

  lemma ConcludeJudges(t: Turn, u: Turn, c: nat)
    requires Midway(t, u)
    ensures Judges(t, Conclude(u, c), c)
  {
    hide Blank, Join;
  }

  lemma CancelJudges(t: Turn, u: Turn, c: nat)
    requires Midway(t, u)
    ensures Judges(t, CancelBlock(u, c), c)
  {
    ConcludeJudges(t, u, c);
    hide Blank, Join, Conclude;
  }

  lemma EndJudges(t: Turn, u: Turn, c: nat)
    requires Midway(t, u)
    ensures Judges(t, EndBlock(u, c), c)
  {
    CancelJudges(t, u, c);
    hide Blank, Join, CancelBlock;
  }

  lemma PartialJudges(t: Turn, u: Turn, c: nat)
    requires Midway(t, u)
    ensures Judges(t, PartialBlock(u, c), c)
  {
    EndJudges(t, u, c);
    hide Blank, Join, EndBlock;
  }

  lemma SettleJudges(t: Turn, u: Turn, c: nat)
    requires Midway(t, u)
    ensures Judges(t, SettleBlock(u, c), c)
  {
    hide Blank, Join;
  }

  lemma FailureJudges(t: Turn, u: Turn, c: nat)
    requires Midway(t, u)
    ensures Judges(t, FailureBlock(u, c), c)
  {
    SettleJudges(t, u, c);
    hide Blank, Join, SettleBlock;
  }

  lemma StartJudges(t: Turn, c: nat)
    requires !Sent(t)
    ensures Judges(t, CoalescedBlock(t.(started := t.started + 1), c), c)
  {
    var p := t.(started := t.started + 1);
    if OwesBuffer(t) {
      hide Blank, Join, FailureBlock;
    } else {
      hide Blank, Join;
      assert Midway(t, p);
      FailureJudges(t, p, c);
      hide FailureBlock, Judges;
    }
  }

  lemma ReturnedJudges(t: Turn, u: Turn, c: nat)
    requires Judges(t, u, c) && c in u.calls && u.calls[c].Returned?
    ensures Judges(t, AfterPlain(u, c, u.calls[c].site, u.calls[c].landed), c)
  {
    var (site, landed) := (u.calls[c].site, u.calls[c].landed);
    var more := u.(streamDeliveryFailed := u.streamDeliveryFailed || !landed);
    var less := u.(streamDeliveryFailed := u.streamDeliveryFailed && !landed);
    hide Blank, Join, FailureBlock, SettleBlock, EndBlock, CancelBlock;
    match site {
      case Coalesced => FailureJudges(t, more.(streamDiedCoalesced := None), c);
      case TotalFailure => SettleJudges(t, less, c);
      case PartialWireDeath => EndJudges(t, more, c);
      case _ => CancelJudges(t, less, c);
    }
  }

  lemma EndingJudges(t: Turn, u: Turn, c: nat, o: Outcome)
    requires Judges(t, u, c) && c in u.calls && u.calls[c].Ending?
    ensures Judges(t, Resume(u, c, o), c)
  {
    if o == Fine {
      CancelJudges(t, u.(outputSentToUser := true), c);
      hide Blank, Join, CancelBlock;
    } else {
      hide Blank, Join, CancelBlock;
    }
  }

  lemma WaitJudges(t: Turn, u: Turn, c: nat, o: Outcome)
    requires Judges(t, u, c) && c in u.calls
    requires u.calls[c].Sending? || u.calls[c].Settling? || u.calls[c].Cancelling?
    ensures Judges(t, Resume(u, c, o), c)
  {
    if u.calls[c].Cancelling? {
      ConcludeJudges(t, u.(streamHandle := None), c);
    }
    hide Blank, Join, Conclude;
  }

  lemma StepJudges(t: Turn, u: Turn, e: Event, c: nat)
    requires Judges(t, u, c) && Possible(u, e) && Alone(e, c)
    ensures Judges(t, Step(u, e), c)
  {
    if e.Resumes? {
      var at := u.calls[c];
      if at.Returned? {
        ReturnedJudges(t, u, c);
        hide AfterPlain, Judges;
      } else if at.Settled? {
        PartialJudges(t, u, c);
        hide PartialBlock, Judges;
      } else {
        hide Resume, Judges;
        if at.Ending? {
          EndingJudges(t, u, c, e.outcome);
        } else {
          WaitJudges(t, u, c, e.outcome);
        }
      }
    } else {
      hide Blank, Join;
    }
  }

  lemma {:induction false} RunJudges(t: Turn, u: Turn, events: seq<Event>, c: nat)
    requires Judges(t, u, c) && Legal(u, events) && forall e :: e in events ==> Alone(e, c)
    ensures Judges(t, Exec(u, events), c)
    decreases |events|
  {
    hide Judges, Possible, Step, Alone;
    if events == [] {
    } else {
      StepJudges(t, u, events[0], c);
      RunJudges(t, Step(u, events[0]), events[1..], c);
    }
  }

  /** A terminal that runs alone to its end, in a turn in which nothing has been sent plainly and no failure handled,
      asks for a retry, or reports the run's error, exactly if: what it tried to send plainly did not land, or there
      was a failed final or a buffer and it could not try; or the buffered finals landed, and another final had
      failed. */
  lemma AloneAsksExactly(t: Turn, events: seq<Event>)
    requires !Sent(t) && !t.terminalFailureHandled
    requires Legal(t, [Finalize] + events) && forall e :: e in events ==> Alone(e, t.started)
    requires t.started !in Exec(t, [Finalize] + events).calls
    ensures var u := Exec(t, [Finalize] + events);
            Asks(t, u) <==> HasFailed(t, u)
  {
    hide Exec, Legal, CoalescedBlock, Alone, Blank, Join;
    FinalizeFirst(t, events);
    StartJudges(t, t.started);
    RunJudges(t, CoalescedBlock(t.(started := t.started + 1), t.started), events, t.started);
  }
}
