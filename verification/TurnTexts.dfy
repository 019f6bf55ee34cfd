/** Which text the terminals of a turn bring to the user, and by which way: plainly, or as the end of the stream. */
module TurnTexts {
  import opened Options
  import opened Text
  import opened TurnModel
  import opened TurnTheorems
  import opened TurnAnswers

  // ------------------------------------------------------------------ the text that goes out plainly

  predicate JoinsBlank(t: Turn) {
    Blank(Join(t.streamDiedCoalesced.GetOr([])))
  }

  /** What is due before anything else: the finals that are buffered, or else a final that failed. */
  function Due(t: Turn): string {
    if OwesBuffer(t) && !JoinsBlank(t) then Join(t.streamDiedCoalesced.value)
    else if t.streamDeliveryFailed || OwesBuffer(t) then t.streamFailureFinalText
    else ""
  }

  /** The one text that the turn may send plainly: what is due, or else what the user has seen of the answer. */
  function Answer(t: Turn): string {
    if !Blank(Due(t)) then Due(t) else t.progressiveText
  }

  /** Since `t` no plain send has started. */
  predicate Unsaid(t: Turn, u: Turn) {
    && !Sent(u) && u.plain == t.plain && u.progressiveText == t.progressiveText
    && u.streamFailureFinalText == t.streamFailureFinalText
    && (OwesBuffer(u) ==> u.streamDiedCoalesced == t.streamDiedCoalesced && JoinsBlank(t))
    && (OwesBuffer(t) ==> JoinsBlank(t))
    && (u.streamDeliveryFailed ==> t.streamDeliveryFailed || OwesBuffer(t))
  }

  /** Since `t` one has, with the answer. */
  predicate Said(t: Turn, u: Turn) {
    Sent(u) && u.plain == t.plain + [Answer(t)] && u.progressiveText == t.progressiveText
  }

  predicate SaidOrNot(t: Turn, u: Turn) {
    Said(t, u) || Unsaid(t, u)
  }

  /** While nothing is said, calls that look at the buffer have one to look at; and if something is due, it is the
      failed final behind a blank buffer, and every call is still looking at that. */
  ghost predicate Saying(t: Turn, u: Turn, from: nat) {
    Said(t, u)
    || (&& Unsaid(t, u)
        && (forall c :: from <= c && SeesBuffer(u, c) ==> OwesBuffer(t))
        && (!Blank(Due(t)) ==> OwesBuffer(u) && forall c :: from <= c && c in u.calls ==> SeesBuffer(u, c)))
  }

  lemma PlainSays(t: Turn, p: Turn, c: nat, text: string, site: Site)
    requires Unsaid(t, p) && (Blank(text) || text == Answer(t))
    ensures var u := SendPlain(p, c, text, site);
            if Blank(text) then Unsaid(t, u) && u == Suspend(p, c, Returned(site, false)) else Said(t, u)
  {
    hide Blank, Join;
  }

  lemma ConcludeSays(t: Turn, p: Turn, c: nat)
    requires Unsaid(t, p)
    ensures Unsaid(t, Conclude(p, c)) && c !in Conclude(p, c).calls
  {
    hide Blank, Join;
  }

  lemma CancelSays(t: Turn, p: Turn, c: nat)
    requires Unsaid(t, p)
    ensures Unsaid(t, CancelBlock(p, c)) && !SeesBuffer(CancelBlock(p, c), c)
  {
    hide Blank, Join;
    ConcludeSays(t, p, c);
    hide Conclude;
  }

  lemma EndSays(t: Turn, p: Turn, c: nat)
    requires Unsaid(t, p)
    ensures Unsaid(t, EndBlock(p, c)) && !SeesBuffer(EndBlock(p, c), c)
  {
    hide Blank, Join;
    CancelSays(t, p, c);
    hide CancelBlock;
  }

  lemma PartialSays(t: Turn, p: Turn, c: nat)
    requires Unsaid(t, p) && Blank(Due(t))
    ensures SaidOrNot(t, PartialBlock(p, c)) && !SeesBuffer(PartialBlock(p, c), c)
  {
    hide Blank, Join;
    EndSays(t, p, c);
    SendPlainAt(p, c, p.progressiveText, PartialWireDeath);
    if !Blank(p.progressiveText) {
      PlainSays(t, p, c, p.progressiveText, PartialWireDeath);
    }
    hide EndBlock, SendPlain, Unsaid, Said;
  }

  lemma SendPlainAt(p: Turn, c: nat, text: string, site: Site)
    ensures var u := SendPlain(p, c, text, site);
            c in u.calls && (u.calls[c].Sending? || u.calls[c].Returned?) && u.calls[c].site == site
  {
    hide Blank;
    if p.terminalPlainAttempted || p.deliveredPlainFallback || Blank(text) {
      assert SendPlain(p, c, text, site).calls == p.calls[c := Returned(site, p.deliveredPlainFallback)];
    } else {
      assert SendPlain(p, c, text, site).calls == p.calls[c := Sending(site)];
    }
    hide SendPlain;
  }

  lemma SettleSays(t: Turn, p: Turn, c: nat)
    requires Unsaid(t, p)
    ensures Unsaid(t, SettleBlock(p, c)) && !SeesBuffer(SettleBlock(p, c), c)
  {
    hide Blank, Join;
  }

  /** If something is due it is the failed final, which is sent here. */
  lemma FailureSays(t: Turn, p: Turn, c: nat)
    requires Unsaid(t, p) && !OwesBuffer(p) && (!Blank(Due(t)) ==> p.streamDeliveryFailed)
    ensures var u := FailureBlock(p, c);
            SaidOrNot(t, u) && !SeesBuffer(u, c) && (!Blank(Due(t)) ==> Said(t, u))
  {
    hide Blank, Join;
    SettleSays(t, p, c);
    SendPlainAt(p, c, p.streamFailureFinalText, TotalFailure);
    if p.streamDeliveryFailed {
      PlainSays(t, p, c, p.streamFailureFinalText, TotalFailure);
    }
    hide SettleBlock, SendPlain;
  }

  lemma StartSays(t: Turn, p: Turn, c: nat)
    requires Unsaid(t, p) && (!Blank(Due(t)) ==> OwesBuffer(p) || p.streamDeliveryFailed)
    ensures var u := CoalescedBlock(p, c);
            && SaidOrNot(t, u) && (SeesBuffer(u, c) ==> OwesBuffer(t))
            && (!Blank(Due(t)) && !Said(t, u) ==> OwesBuffer(u) && SeesBuffer(u, c))
  {
    hide Blank, Join;
    if OwesBuffer(p) {
      PlainSays(t, p, c, Join(p.streamDiedCoalesced.value), Coalesced);
      SendPlainAt(p, c, Join(p.streamDiedCoalesced.value), Coalesced);
      hide SendPlain;
    } else {
      FailureSays(t, p, c);
      hide FailureBlock;
    }
  }

  /** The first terminal sends a buffer that is not blank at once. */
  lemma FirstSays(t: Turn)
    requires !Sent(t)
    ensures var (p, c) := (t.(started := t.started + 1), t.started);
            var u := CoalescedBlock(p, c);
            && SaidOrNot(t, u) && (SeesBuffer(u, c) ==> Said(t, u) || OwesBuffer(t))
            && (!Blank(Due(t)) && !Said(t, u) ==> OwesBuffer(u) && SeesBuffer(u, c))
  {
    assert Blank("");
    hide Blank, Join;
    var (p, c) := (t.(started := t.started + 1), t.started);
    if OwesBuffer(t) && !JoinsBlank(t) {
      hide FailureBlock;
    } else {
      StartSays(t, p, c);
    }
  }

  // ------------------------------------------------------------------ one step

  lemma ReturnedSays(t: Turn, u: Turn, c: nat, from: nat)
    requires Unsaid(t, u) && Saying(t, u, from) && from <= c && c in u.calls && u.calls[c].Returned?
    requires Relies(u, u.calls[c])
    ensures var (at, v) := (u.calls[c], AfterPlain(u, c, u.calls[c].site, u.calls[c].landed));
            SaidOrNot(t, v) && !SeesBuffer(v, c) && (!Blank(Due(t)) ==> Said(t, v))
  {
    hide Blank, Join, FailureBlock, SettleBlock;
    var at := u.calls[c];
    assert !at.landed && (at.site == Coalesced || at.site == TotalFailure);
    if at.site == Coalesced {
      assert SeesBuffer(u, c);
      FailureSays(t, u.(streamDiedCoalesced := None, streamDeliveryFailed := true), c);
    } else {
      SettleSays(t, u.(streamDeliveryFailed := u.streamDeliveryFailed), c);
    }
  }

  lemma EndingSays(t: Turn, u: Turn, c: nat, o: Outcome)
    requires Unsaid(t, u) && Blank(Due(t)) && c in u.calls && u.calls[c].Ending? && Relies(u, Ending)
    ensures SaidOrNot(t, Resume(u, c, o)) && !SeesBuffer(Resume(u, c, o), c)
  {
    hide Blank, Join, CancelBlock, SendPlain;
    if o == Fine {
      CancelSays(t, u.(outputSentToUser := true), c);
    } else {
      var failed := u.(streamDeliveryFailed := true, streamFailureFinalText := u.progressiveText);
      var site := if o == Reported then EndFailed else EndThrew;
      SendPlainAt(failed, c, u.progressiveText, site);
      EndingFails(t, u, failed, c, site);
    }
  }

  lemma EndingFails(t: Turn, u: Turn, failed: Turn, c: nat, site: Site)
    requires Unsaid(t, u) && Blank(Due(t)) && !Blank(u.progressiveText)
    requires failed == u.(streamDeliveryFailed := true, streamFailureFinalText := u.progressiveText)
    ensures Said(t, SendPlain(failed, c, u.progressiveText, site))
  {
    hide Blank, Join;
  }

  lemma WaitSays(t: Turn, u: Turn, c: nat, o: Outcome)
    requires Unsaid(t, u) && c in u.calls && (u.calls[c].Settling? || u.calls[c].Cancelling?)
    ensures Unsaid(t, Resume(u, c, o)) && !SeesBuffer(Resume(u, c, o), c)
  {
    hide Blank, Join, Conclude;
    if u.calls[c].Cancelling? {
      ConcludeSays(t, u.(streamHandle := None), c);
    }
  }

  lemma ResumeSays(t: Turn, u: Turn, c: nat, o: Outcome, from: nat)
    requires Unsaid(t, u) && Saying(t, u, from) && from <= c && c in u.calls && Relies(u, u.calls[c])
    ensures var v := Resume(u, c, o);
            SaidOrNot(t, v) && !SeesBuffer(v, c) && (!Blank(Due(t)) ==> Said(t, v))
  {
    assert !u.calls[c].Sending? && (!Blank(Due(t)) ==> u.calls[c].Returned?);
    hide Blank, Join, AfterPlain, PartialBlock, Unsaid, Said, Relies;
    if u.calls[c].Returned? {
      ReturnedSays(t, u, c, from);
    } else if u.calls[c].Settled? {
      PartialSays(t, u, c);
    } else {
      hide Resume;
      if u.calls[c].Ending? {
        EndingSays(t, u, c, o);
      } else {
        WaitSays(t, u, c, o);
      }
    }
  }

  /** Calls other than `c` are where they were. */
  lemma OthersSee(t: Turn, u: Turn, c: nat, d: nat)
    requires Moved(t, u, c) && d != c
    ensures (d in u.calls <==> d in t.calls) && (SeesBuffer(u, d) <==> SeesBuffer(t, d))
  {
    hide Relies;
    assert d in u.calls - {c} <==> d in t.calls - {c};
    assert d in t.calls ==> (u.calls - {c})[d] == (t.calls - {c})[d];
  }

  lemma MoveSays(t: Turn, u: Turn, v: Turn, c: nat, from: nat)
    requires Unsaid(t, u) && Saying(t, u, from) && KeepsAttended(u, v, c)
    requires SaidOrNot(t, v) && !SeesBuffer(v, c) && (!Blank(Due(t)) ==> Said(t, v))
    ensures Saying(t, v, from)
  {
    assert Moved(u, v, c);
    hide Moved, Unsaid, Blank, SeesBuffer, KeepsAttended;
    if !Said(t, v) {
      forall d | from <= d && SeesBuffer(v, d) ensures OwesBuffer(t) {
        OthersSee(u, v, c, d);
      }
    }
  }

  lemma FinalizeSays(t: Turn, u: Turn, from: nat)
    requires Unsaid(t, u) && Saying(t, u, from) && from <= u.started
    ensures Saying(t, Step(u, Finalize), from)
  {
    var (p, c) := (u.(started := u.started + 1), u.started);
    assert Unsaid(t, p) && (!Blank(Due(t)) ==> OwesBuffer(p));
    StartSays(t, p, c);
    StartSeesAll(p, c);
    assert forall d :: SeesBuffer(p, d) <==> SeesBuffer(u, d);
    hide CoalescedBlock, SeesBuffer, Moved, Blank;
    StartedSays(t, p, CoalescedBlock(p, c), c, from);
  }

  lemma StartedSays(t: Turn, p: Turn, v: Turn, c: nat, from: nat)
    requires Unsaid(t, p) && Saying(t, p, from) && Moved(p, v, c)
    requires SaidOrNot(t, v) && (SeesBuffer(v, c) ==> OwesBuffer(t))
    requires !Blank(Due(t)) && !Said(t, v) ==> OwesBuffer(v) && SeesBuffer(v, c)
    ensures Saying(t, v, from)
  {
    assert !Said(t, p);
    hide Moved, Unsaid, Blank, SeesBuffer;
    if !Said(t, v) {
      forall d | from <= d && d != c
        ensures (d in v.calls <==> d in p.calls) && (SeesBuffer(v, d) <==> SeesBuffer(p, d))
      {
        OthersSee(p, v, c, d);
      }
    }
  }

  lemma StepSays(t: Turn, u: Turn, e: Event, from: nat)
    requires Saying(t, u, from) && Attended(u, from) && Possible(u, e) && Since(e, from) && from <= u.started
    ensures Saying(t, Step(u, e), from)
  {
    if Sent(u) {
      assert Said(t, u);
      hide Step, Saying, Attended;
      StepReach(u, e);
      SaidIsSaying(t, Step(u, e), from);
    } else if e.Finalize? {
      FinalizeSays(t, u, from);
    } else if e.Resumes? {
      assert Relies(u, u.calls[e.call]);
      assert Unsaid(t, u);
      hide Saying, Unsaid, Said, Resume, Attended, Relies, KeepsAttended;
      ResumeSays(t, u, e.call, e.outcome, from);
      ResumeKeepsAttended(u, e.call, e.outcome);
      MoveSays(t, u, Step(u, e), e.call, from);
    } else {
      hide Attended, Blank, Join;
      assert forall c :: SeesBuffer(Step(u, e), c) <==> SeesBuffer(u, c);
    }
  }

  lemma SaidIsSaying(t: Turn, u: Turn, from: nat)
    requires Said(t, u)
    ensures Saying(t, u, from)
  {}

  lemma {:induction false} RunSays(t: Turn, u: Turn, events: seq<Event>, from: nat)
    requires Saying(t, u, from) && Attended(u, from) && from <= u.started
    requires Legal(u, events) && forall e :: e in events ==> Since(e, from)
    ensures Saying(t, Exec(u, events), from) && Attended(Exec(u, events), from)
    decreases |events|
  {
    hide Saying, Attended, Possible, Step, Since;
    if events == [] {
    } else {
      StepSays(t, u, events[0], from);
      StepAttended(u, events[0], from);
      StepNumbers(u, events[0]);
      RunSays(t, Step(u, events[0]), events[1..], from);
    }
  }

  lemma StartIsSaying(t: Turn)
    requires !Sent(t) && Numbered(t)
    ensures Saying(t, Step(t, Finalize), t.started)
  {
    var (p, c) := (t.(started := t.started + 1), t.started);
    FirstSays(t);
    StartSeesAll(p, c);
    var u := CoalescedBlock(p, c);
    hide CoalescedBlock, Unsaid, Blank, Join;
    forall d | c <= d && d != c ensures d !in u.calls && !SeesBuffer(u, d) {
      OthersSee(p, u, c, d);
    }
  }

  /** A terminal starts in a turn in which nothing has been sent plainly, and any number of others after it, in any
      interleaving without an output event. When all have returned: if something was due, that and nothing else has been
      sent plainly, once; and if nothing was, then what the user had seen of the answer, if a gate is shut at all. */
  lemma RightTextIsSent(t: Turn, events: seq<Event>)
    requires Numbered(t) && !Sent(t)
    requires Legal(t, [Finalize] + events) && forall e :: e in events ==> Since(e, t.started)
    requires forall c :: c in Exec(t, [Finalize] + events).calls ==> c < t.started
    ensures var u := Exec(t, [Finalize] + events);
            if !Blank(Due(t)) then u.plain == t.plain + [Due(t)]
            else u.plain == if Sent(u) then t.plain + [t.progressiveText] else t.plain
  {
    hide Legal, Exec, Attended, Step, Since, Blank, Due, Quiet;
    FirstEvent(t, Finalize, events);
    FinalizeAttends(t, t.started);
    StepNumbers(t, Finalize);
    StartIsSaying(t);
    RunSays(t, Step(t, Finalize), events, t.started);
    SettlesQuiet(t, events);
    QuietHasSaid(t, Exec(t, [Finalize] + events), t.started);
  }

  lemma QuietHasSaid(t: Turn, u: Turn, from: nat)
    requires Saying(t, u, from) && Quiet(u)
    ensures if !Blank(Due(t)) then u.plain == t.plain + [Due(t)]
            else u.plain == if Sent(u) then t.plain + [t.progressiveText] else t.plain
  {
    hide Blank;
  }
}
