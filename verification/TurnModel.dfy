/** Terminalization of a chat turn over a native stream: the gates that the end paths share, and the calls of
    finalizeNativeStreamTerminal, each suspended at one of its awaits. */
module TurnModel {
  import opened Options
  import opened Text

  /** Which plain send of the terminal. */
  datatype Site = Coalesced | TotalFailure | PartialWireDeath | EndFailed | EndThrew

  /** Where a call of the terminal is suspended. */
  datatype Await =
    | Sending(site: Site)                 // channel.sendMessage
    | Returned(site: Site, landed: bool)  // sendPlainTerminal has returned
    | Settling(handle: nat)               // handle.settle
    | Settled                             // settleAndProbeWireDeath has returned
    | Ending                              // handle.end
    | Cancelling                          // handle.cancel

  datatype Turn = Turn(
    userTurnSeq: nat,         // the queue's
    initialUserTurnSeq: nat,
    deliveryStateTurnSeq: nat,
    terminalPlainAttempted: bool,
    deliveredPlainFallback: bool,
    terminalFailureHandled: bool,
    streamDeliveryFailed: bool,
    outputSentToUser: bool,
    hadError: bool,
    streamFailureFinalText: string,
    progressiveText: string,
    streamDiedCoalesced: Option<seq<string>>,
    streamHandle: Option<nat>,
    cancelled: set<nat>,      // the handles whose wire is dead
    calls: map<nat, Await>,
    started: nat,
    sends: multiset<nat>,     // plain terminal sends started, by turn number
    plain: seq<string>,       // their texts
    ends: seq<string>,        // the texts with which streams were ended
    cancels: nat,
    retries: nat,
    deliveries: nat)          // calls of notifyUserDelivery

  function NewTurn(seqNow: nat): Turn {
    Turn(seqNow, seqNow, seqNow, false, false, false, false, false, false, "", "", None, None, {}, map[], 0,
         multiset{}, [], [], 0, 0, 0)
  }

  predicate Blank(s: string) {
    Trim(s) == ""
  }

  function Join(texts: seq<string>): string {
    if texts == [] then ""
    else if |texts| == 1 then texts[0]
    else texts[0] + "\n\n" + Join(texts[1..])
  }

  function Suspend(t: Turn, c: nat, at: Await): Turn {
    t.(calls := t.calls[c := at])
  }

  /** sendPlainTerminal up to its await, or past it when a gate is shut. */
  function SendPlain(t: Turn, c: nat, text: string, site: Site): Turn {
    if t.terminalPlainAttempted || t.deliveredPlainFallback || Blank(text)
    then Suspend(t, c, Returned(site, t.deliveredPlainFallback))
    else
      var sending := t.(terminalPlainAttempted := true, sends := t.sends + multiset{t.deliveryStateTurnSeq},
                         plain := t.plain + [text]);
      Suspend(sending, c, Sending(site))
  }

  // ------------------------------------------------------------------ the terminal, block by block

  function CoalescedBlock(t: Turn, c: nat): Turn {
    if t.streamDiedCoalesced.GetOr([]) != [] then SendPlain(t, c, Join(t.streamDiedCoalesced.value), Coalesced)
    else FailureBlock(t, c)
  }

  function FailureBlock(t: Turn, c: nat): Turn {
    if t.streamDeliveryFailed && !t.deliveredPlainFallback then SendPlain(t, c, t.streamFailureFinalText, TotalFailure)
    else SettleBlock(t, c)
  }

  function SettleBlock(t: Turn, c: nat): Turn {
    match t.streamHandle
    case Some(h) => Suspend(t, c, Settling(h))
    case None => Suspend(t, c, Settled)
  }

  /** probeWireDeath */
  function Probe(t: Turn): Turn {
    if t.streamHandle.Some? && t.streamHandle.value in t.cancelled && t.streamDiedCoalesced.None?
    then t.(streamDiedCoalesced := Some([]), streamHandle := None)
    else t
  }

  predicate NeedsPartialFallback(t: Turn) {
    !t.streamDeliveryFailed
    && (t.streamDiedCoalesced.Some? || (t.streamHandle.Some? && t.streamHandle.value in t.cancelled))
  }

  function PartialBlock(t: Turn, c: nat): Turn {
    if NeedsPartialFallback(t) && !t.deliveredPlainFallback && !Blank(t.progressiveText)
    then SendPlain(t, c, t.progressiveText, PartialWireDeath)
    else EndBlock(t, c)
  }

  function EndBlock(t: Turn, c: nat): Turn {
    if t.streamHandle.Some? && !t.outputSentToUser && !Blank(t.progressiveText)
    then Suspend(t.(streamHandle := None, ends := t.ends + [t.progressiveText]), c, Ending)
    else CancelBlock(t, c)
  }

  function CancelBlock(t: Turn, c: nat): Turn {
    if t.streamHandle.Some? then Suspend(t.(cancels := t.cancels + 1), c, Cancelling) else Conclude(t, c)
  }

  predicate Failed(t: Turn) {
    t.streamDeliveryFailed || (t.terminalPlainAttempted && !t.deliveredPlainFallback)
  }

  function Conclude(t: Turn, c: nat): Turn {
    var over := t.(calls := t.calls - {c});
    if Failed(t) && !t.terminalFailureHandled then
      if t.userTurnSeq > t.initialUserTurnSeq then over.(terminalFailureHandled := true, retries := t.retries + 1)
      else over.(terminalFailureHandled := true, hadError := true)
    else if t.outputSentToUser || t.deliveredPlainFallback then over.(deliveries := t.deliveries + 1)
    else over
  }

  /** What follows a call of sendPlainTerminal. */
  function AfterPlain(t: Turn, c: nat, site: Site, landed: bool): Turn {
    match site
    case Coalesced =>
      FailureBlock(t.(streamDiedCoalesced := None, streamDeliveryFailed := t.streamDeliveryFailed || !landed), c)
    case TotalFailure => SettleBlock(t.(streamDeliveryFailed := t.streamDeliveryFailed && !landed), c)
    case PartialWireDeath => EndBlock(t.(streamDeliveryFailed := t.streamDeliveryFailed || !landed), c)
    case EndFailed => CancelBlock(t.(streamDeliveryFailed := t.streamDeliveryFailed && !landed), c)
    case EndThrew => CancelBlock(t.(streamDeliveryFailed := t.streamDeliveryFailed && !landed), c)
  }

  /** How the awaited operation came out: sendMessage and end may throw, end may also report failure. */
  datatype Outcome = Fine | Reported | Threw

  function Resume(t: Turn, c: nat, o: Outcome): Turn
    requires c in t.calls
  {
    match t.calls[c]
    case Sending(site) =>
      if o == Fine then Suspend(t.(deliveredPlainFallback := true, outputSentToUser := true), c, Returned(site, true))
      else Suspend(t, c, Returned(site, false))
    case Returned(site, landed) => AfterPlain(t, c, site, landed)
    case Settling(h) => Suspend(if t.streamHandle == Some(h) then Probe(t) else t, c, Settled)
    case Settled => PartialBlock(t, c)
    case Ending =>
      if o == Fine then CancelBlock(t.(outputSentToUser := true), c)
      else
        SendPlain(t.(streamDeliveryFailed := true, streamFailureFinalText := t.progressiveText), c, t.progressiveText,
                  if o == Reported then EndFailed else EndThrew)
    case Cancelling => Conclude(t.(streamHandle := None), c)
  }

  /** resetDeliveryStateForTurn */
  function ResetForTurn(t: Turn, seqNow: nat): Turn {
    if seqNow == t.deliveryStateTurnSeq then t
    else t.(
      deliveryStateTurnSeq := seqNow, hadError := false, outputSentToUser := false, deliveredPlainFallback := false,
      terminalPlainAttempted := false, terminalFailureHandled := false, streamDeliveryFailed := false,
      streamFailureFinalText := "", progressiveText := "", streamDiedCoalesced := None)
  }

  // ------------------------------------------------------------------ events

  /** Anything that handling an output may write to the streaming fields between two of its awaits. */
  datatype Writes = Writes(
    progressiveText: string, streamFailureFinalText: string, streamDiedCoalesced: Option<seq<string>>,
    streamHandle: Option<nat>, streamDeliveryFailed: bool, outputSentToUser: bool, hadError: bool)

  datatype Event =
    | TurnPiped
    | WireDies(handle: nat)
    | OutputArrives           // any output but the query-complete sentinel
    | OutputWrites(w: Writes)
    | Finalize                // by the sentinel, the tail or the finally block
    | Resumes(call: nat, outcome: Outcome)

  predicate Possible(t: Turn, e: Event) {
    e.Resumes? ==> e.call in t.calls
  }

  predicate IsOutput(e: Event) {
    e.OutputArrives? || e.OutputWrites?
  }

  function Step(t: Turn, e: Event): Turn
    requires Possible(t, e)
  {
    match e
    case TurnPiped => t.(userTurnSeq := t.userTurnSeq + 1)
    case WireDies(h) => t.(cancelled := t.cancelled + {h})
    case OutputArrives => ResetForTurn(t, t.userTurnSeq)
    case OutputWrites(w) => t.(
      progressiveText := w.progressiveText, streamFailureFinalText := w.streamFailureFinalText,
      streamDiedCoalesced := w.streamDiedCoalesced, streamHandle := w.streamHandle,
      streamDeliveryFailed := w.streamDeliveryFailed, outputSentToUser := w.outputSentToUser, hadError := w.hadError)
    case Finalize => CoalescedBlock(t.(started := t.started + 1), t.started)
    case Resumes(c, o) => Resume(t, c, o)
  }

  ghost predicate Legal(t: Turn, events: seq<Event>)
    decreases |events|
  {
    events == [] || (Possible(t, events[0]) && Legal(Step(t, events[0]), events[1..]))
  }

  function Exec(t: Turn, events: seq<Event>): Turn
    requires Legal(t, events)
    decreases |events|
  {
    if events == [] then t else Exec(Step(t, events[0]), events[1..])
  }
}
