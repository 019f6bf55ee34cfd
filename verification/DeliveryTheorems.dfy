/** What every interleaving of the polls keeps, and which failures of the store or the adapter break it. */
module DeliveryTheorems {
  import opened DeliveryModel

  // ------------------------------------------------------------------ invariants

  ghost predicate Served(w: World, session: string) {
    exists c :: c in w.drains && w.drains[c].session == session
  }

  /** The calls that have not returned are for different sessions, and the guard knows exactly those. */
  ghost predicate Guarded(w: World) {
    && (forall c :: c in w.drains ==> c < w.calls && w.drains[c].session in w.inflight)
    && (forall s :: s in w.inflight ==> Served(w, s))
    && (forall c, d :: c in w.drains && d in w.drains && w.drains[c].session == w.drains[d].session ==> c == d)
  }

  /** What a drain has before it: rows of its session, each once, none marked. */
  ghost predicate DrainOk(w: World, d: Drain) {
    && d.next <= |d.undelivered|
    && NoDuplicates(d.undelivered)
    && (forall id :: id in d.undelivered ==> id in w.home && w.home[id] == d.session)
    && (!d.aborted ==> forall id :: id in d.undelivered[d.next..] ==> id !in w.marks)
  }

  ghost predicate DrainsOk(w: World) {
    forall c :: c in w.drains ==> DrainOk(w, w.drains[c])
  }

  /** The retry counter counts the settled attempts of an unmarked message; a mark ends them. */
  ghost predicate CountOk(w: World, id: string) {
    if id in w.marks then w.tries[id] <= 3 && w.marked[id] == 1 && id !in w.attempts
    else w.tries[id] == Attempts(w, id) && w.tries[id] <= 2 && w.marked[id] == 0
  }

  ghost predicate CountsOk(w: World) {
    forall id :: CountOk(w, id)
  }

  /** A message that has reached the user is marked, and did so once. */
  ghost predicate ReachedOk(w: World) {
    forall id :: w.reached[id] <= 1 && (id in w.reached ==> id in w.marks)
  }

  ghost predicate Inv(w: World) {
    Guarded(w) && DrainsOk(w)
  }

  // ------------------------------------------------------------------ steps

  lemma {:induction false} UndeliveredIs(due: seq<string>, marks: map<string, Mark>)
    requires NoDuplicates(due)
    ensures NoDuplicates(Undelivered(due, marks))
    ensures forall id :: id in Undelivered(due, marks) <==> id in due && id !in marks
  {
    if due == [] {
    } else {
      UndeliveredIs(due[1..], marks);
      var rest := Undelivered(due[1..], marks);
      assert forall id :: id in due <==> id == due[0] || id in due[1..];
      assert due[0] !in due[1..];
    }
  }

  lemma PollKeeps(w: World, session: string, due: seq<string>)
    requires Inv(w) && Possible(w, Poll(session, due))
    ensures Inv(StartDrain(w, session, due))
  {
    hide Guarded, DrainsOk;
    if session !in w.inflight {
      PollKeepsGuard(w, session, due);
      PollKeepsDrains(w, session, due);
    }
  }

  lemma PollKeepsGuard(w: World, session: string, due: seq<string>)
    requires Guarded(w) && session !in w.inflight
    ensures Guarded(StartDrain(w, session, due))
  {
    hide Undelivered;
    var w' := StartDrain(w, session, due);
    forall s | s in w'.inflight ensures Served(w', s) {
      if s == session {
        assert w'.drains[w.calls].session == s;
      } else {
        assert Served(w, s);
        var c :| c in w.drains && w.drains[c].session == s;
        assert w'.drains[c].session == s;
      }
    }
  }

  lemma PollKeepsDrains(w: World, session: string, due: seq<string>)
    requires DrainsOk(w) && session !in w.inflight && Possible(w, Poll(session, due))
    ensures DrainsOk(StartDrain(w, session, due))
  {
    UndeliveredIs(due, w.marks);
    hide Undelivered, NoDuplicates;
    var w' := StartDrain(w, session, due);
    assert DrainOk(w', w'.drains[w.calls]);
    DrainsAsBefore(w, w', w.calls);
    hide DrainOk;
  }

  /** Marks unchanged, other drains are as sound as before. */
  lemma DrainsAsBefore(w: World, w': World, call: nat)
    requires DrainsOk(w) && w'.marks == w.marks && w'.home == w.home
    ensures forall c :: c in w.drains && c in w'.drains && c != call && w'.drains[c] == w.drains[c] ==>
              DrainOk(w', w'.drains[c])
  {}

  lemma ReturnKeeps(w: World, call: nat)
    requires Inv(w) && Possible(w, Returns(call))
    ensures Inv(Return(w, call))
  {
    hide NoDuplicates;
    var w' := Return(w, call);
    forall s | s in w'.inflight ensures Served(w', s) {
      assert Served(w, s);
      var c :| c in w.drains && w.drains[c].session == s;
      assert c != call && w'.drains[c].session == s;
    }
    DrainsAsBefore(w, w', call);
  }

  /** The message being attempted is nowhere else in what any drain has before it. */
  lemma OnlyHere(w: World, call: nat, c: nat)
    requires Inv(w) && call in w.drains && c in w.drains && !w.drains[call].Over()
    requires c != call
    ensures w.drains[call].undelivered[w.drains[call].next] !in w.drains[c].undelivered
  {}

  /** A settlement touches one drain, one message's mark and its count. */
  lemma SettleTouches(w: World, call: nat, o: Outcome)
    requires Possible(w, Settles(call, o))
    ensures var (w', d) := (Settle(w, call, o), w.drains[call]);
            && w'.home == w.home && w'.inflight == w.inflight && w'.calls == w.calls
            && w'.drains.Keys == w.drains.Keys
            && w'.drains[call].session == d.session && w'.drains[call].undelivered == d.undelivered
            && w'.drains[call].next == d.next + 1
            && (!o.failMarkThrows ==> !w'.drains[call].aborted)
            && (forall c :: c in w.drains && c != call ==> w'.drains[c] == w.drains[c])
            && (forall x :: x != d.undelivered[d.next] ==> (x in w'.marks <==> x in w.marks))
            && w'.tries == w.tries + multiset{d.undelivered[d.next]}
  {
    MessageTouches(w, w.drains[call].undelivered[w.drains[call].next], o);
    hide SettleMessage;
  }

  lemma MessageTouches(w: World, id: string, o: Outcome)
    ensures var (w', goesOn) := SettleMessage(w, id, o);
            && w' == w.(marks := w'.marks, marked := w'.marked, attempts := w'.attempts)
            && (!o.failMarkThrows ==> goesOn)
            && (forall x :: x != id ==> (x in w'.marks <==> x in w.marks))
  {}

  lemma SettleKeepsOwnDrain(w: World, call: nat, o: Outcome)
    requires Inv(w) && Possible(w, Settles(call, o))
    ensures DrainOk(Settle(w, call, o), Settle(w, call, o).drains[call])
  {}

  lemma SettleKeepsOtherDrain(w: World, call: nat, o: Outcome, c: nat)
    requires Inv(w) && Possible(w, Settles(call, o)) && c in w.drains && c != call
    ensures DrainOk(Settle(w, call, o), Settle(w, call, o).drains[c])
  {
    SettleTouches(w, call, o);
    OnlyHere(w, call, c);
    hide Settle, SettleMessage, Guarded, NoDuplicates;
    var d := w.drains[c];
    assert DrainOk(w, d);
    assert forall id :: id in d.undelivered[d.next..] ==> id in d.undelivered;
  }

  lemma SettleKeepsDrains(w: World, call: nat, o: Outcome)
    requires Inv(w) && Possible(w, Settles(call, o))
    ensures DrainsOk(Settle(w, call, o))
  {
    SettleTouches(w, call, o);
    SettleKeepsOwnDrain(w, call, o);
    hide Settle, Inv, DrainOk;
    forall c | c in w.drains && c != call ensures DrainOk(Settle(w, call, o), Settle(w, call, o).drains[c]) {
      SettleKeepsOtherDrain(w, call, o, c);
    }
  }

  lemma SettleKeepsGuard(w: World, call: nat, o: Outcome)
    requires Guarded(w) && Possible(w, Settles(call, o))
    ensures Guarded(Settle(w, call, o))
  {
    SettleTouches(w, call, o);
    hide Settle;
    var w' := Settle(w, call, o);
    assert forall c :: c in w'.drains <==> c in w.drains;
    assert forall c :: c in w.drains ==> w'.drains[c].session == w.drains[c].session;
    forall s | s in w'.inflight ensures Served(w', s) {
      assert Served(w, s);
      var c :| c in w.drains && w.drains[c].session == s;
      assert w'.drains[c].session == s;
    }
    hide Served;
  }

  lemma StepKeeps(w: World, e: Event)
    requires Inv(w) && Possible(w, e)
    ensures Inv(Step(w, e))
  {
    match e {
      case Arrives(_, _) =>
        hide NoDuplicates;
      case Poll(session, due) =>
        PollKeeps(w, session, due);
      case Settles(call, o) =>
        SettleKeepsDrains(w, call, o);
        SettleKeepsGuard(w, call, o);
      case Returns(call) =>
        ReturnKeeps(w, call);
    }
  }

  lemma {:induction false} RunKeeps(w: World, events: seq<Event>)
    requires Inv(w) && Legal(w, events)
    ensures Inv(Exec(w, events))
    decreases |events|
  {
    hide Inv, Possible, Step;
    if events == [] {
    } else {
      StepKeeps(w, events[0]);
      RunKeeps(Step(w, events[0]), events[1..]);
    }
  }

  // ------------------------------------------------------------------ theorems

  /** However the polls interleave and whatever fails, a session never has two drains running, and no message is in
      the hands of two. */
  lemma OneDrainPerSession(events: seq<Event>, c: nat, d: nat)
    requires Legal(START, events)
    requires c in Exec(START, events).drains && d in Exec(START, events).drains && c != d
    ensures var w := Exec(START, events);
            && w.drains[c].session != w.drains[d].session
            && forall id :: id in w.drains[c].undelivered ==> id !in w.drains[d].undelivered
  {
    RunKeeps(START, events);
    var w := Exec(START, events);
    assert DrainOk(w, w.drains[c]) && DrainOk(w, w.drains[d]);
    hide NoDuplicates;
  }

  /** No event has markDeliveryFailed throw. */
  ghost predicate FailMarksStick(events: seq<Event>) {
    forall e :: e in events && e.Settles? ==> !e.outcome.failMarkThrows
  }

  /** No event has an error after the message reached the user. */
  ghost predicate SuccessSticks(events: seq<Event>) {
    forall e :: e in events && e.Settles? && e.outcome.toUser ==> !e.outcome.threw && !e.outcome.markThrows
  }

  lemma CurrentIsUnmarked(w: World, call: nat)
    requires Inv(w) && call in w.drains && !w.drains[call].Over()
    ensures w.drains[call].undelivered[w.drains[call].next] !in w.marks
  {}

  lemma StepCounts(w: World, e: Event)
    requires Inv(w) && Possible(w, e) && CountsOk(w)
    requires e.Settles? ==> !e.outcome.failMarkThrows
    ensures CountsOk(Step(w, e))
  {
    hide Inv;
    if e.Settles? {
      CurrentIsUnmarked(w, e.call);
      forall id ensures CountOk(Step(w, e), id) {
        assert CountOk(w, id);
        SettleKeepsCount(w, e.call, e.outcome, id);
      }
    } else {
      forall id ensures CountOk(Step(w, e), id) {
        assert CountOk(w, id);
      }
    }
  }

  lemma SettleKeepsCount(w: World, call: nat, o: Outcome, id: string)
    requires call in w.drains && !w.drains[call].Over() && !o.failMarkThrows
    requires w.drains[call].undelivered[w.drains[call].next] !in w.marks
    requires CountOk(w, id)
    ensures CountOk(Settle(w, call, o), id)
  {}

  lemma StepReached(w: World, e: Event)
    requires Inv(w) && Possible(w, e) && ReachedOk(w)
    requires e.Settles? && e.outcome.toUser ==> !e.outcome.threw && !e.outcome.markThrows
    ensures ReachedOk(Step(w, e))
  {}

  lemma {:induction false} RunCounts(w: World, events: seq<Event>)
    requires Inv(w) && Legal(w, events)
    ensures FailMarksStick(events) && CountsOk(w) ==> CountsOk(Exec(w, events))
    ensures SuccessSticks(events) && ReachedOk(w) ==> ReachedOk(Exec(w, events))
    decreases |events|
  {
    hide Inv, Possible, Step, CountsOk, ReachedOk;
    if events == [] {
    } else {
      assert forall e :: e in events[1..] ==> e in events;
      assert events[0] in events;
      StepKeeps(w, events[0]);
      if FailMarksStick(events) && CountsOk(w) { StepCounts(w, events[0]); }
      if SuccessSticks(events) && ReachedOk(w) { StepReached(w, events[0]); }
      RunCounts(Step(w, events[0]), events[1..]);
    }
  }

  /** Attempts that settled and the one in progress. */
  ghost function Started(w: World, id: string): nat {
    w.tries[id] + if exists c :: c in w.drains && w.drains[c].Attempting(id) then 1 else 0
  }

  /** As long as failure marks can be written, each message is started at most three times, marked at most once, and
      not started again once marked; an unmarked one has started fewer than three attempts, or the third is on. */
  lemma ThreeAttemptsOneMark(events: seq<Event>, id: string)
    requires Legal(START, events) && FailMarksStick(events)
    ensures var w := Exec(START, events);
            && Started(w, id) <= 3
            && w.marked[id] == (if id in w.marks then 1 else 0)
            && (id in w.marks ==> Started(w, id) == w.tries[id])
            && (id !in w.marks ==> w.tries[id] <= 2)
  {
    RunKeeps(START, events);
    RunCounts(START, events);
    var w := Exec(START, events);
    assert CountOk(w, id);
    if c :| c in w.drains && w.drains[c].Attempting(id) {
      CurrentIsUnmarked(w, c);
    }
    hide Inv;
  }

  /** If no attempt fails after reaching the user, no message reaches the user twice, or is being attempted after it
      has. */
  lemma NeverAfterSuccess(events: seq<Event>, id: string, c: nat)
    requires Legal(START, events) && SuccessSticks(events)
    ensures var w := Exec(START, events);
            w.reached[id] <= 1 && (id in w.reached && c in w.drains ==> !w.drains[c].Attempting(id))
  {
    RunKeeps(START, events);
    RunCounts(START, events);
    var w := Exec(START, events);
    if c in w.drains && w.drains[c].Attempting(id) {
      CurrentIsUnmarked(w, c);
    }
    hide Inv;
  }

  /** Exactly when an attempt leaves its message to be attempted again: an error came after whatever the user got,
      and it was not the third with a working store. */
  lemma LeftUnmarkedExactly(w: World, call: nat, o: Outcome)
    requires Inv(w) && Possible(w, Settles(call, o))
    ensures var id := w.drains[call].undelivered[w.drains[call].next];
            id !in Settle(w, call, o).marks
            <==> (o.threw || o.markThrows) && (Attempts(w, id) + 1 < MAX_DELIVERY_ATTEMPTS || o.failMarkThrows)
  {}

  lemma OneMore(w: World, e: Event, rest: seq<Event>)
    requires Possible(w, e) && Legal(Step(w, e), rest)
    ensures Legal(w, [e] + rest) && Exec(w, [e] + rest) == Exec(Step(w, e), rest)
  {}

  /** A poll of a session whose only message is unmarked, the attempt, and the return: with the insert throwing, the
      user has the message once more and it is still unmarked. */
  lemma RoundWithoutMark(w: World, events: seq<Event>)
    requires w.home == map["m" := "s"] && w.inflight == {} && w.marks == map[] && w.drains == map[]
    requires Attempts(w, "m") < 2
    requires events == [Poll("s", ["m"]), Settles(w.calls, Outcome(true, false, true, false)), Returns(w.calls)]
    ensures Legal(w, events)
    ensures var w' := Exec(w, events);
            && w'.home == w.home && w'.inflight == {} && w'.marks == map[] && w'.drains == map[]
            && Attempts(w', "m") == Attempts(w, "m") + 1 && w'.calls == w.calls + 1
            && w'.reached == w.reached + multiset{"m"}
  {
    var w1 := StartDrain(w, "s", ["m"]);
    assert Undelivered(["m"], w.marks) == ["m"];
    assert Step(w, events[0]) == w1;
    var w2 := Settle(w1, w.calls, events[1].outcome);
    assert w2.drains[w.calls] == Drain("s", ["m"], 1, false);
    var w3 := Return(w2, w.calls);
    assert w3.drains == map[] && w3.inflight == {};
    OneMore(w2, events[2], []);
    OneMore(w1, events[1], [events[2]]);
    OneMore(w, events[0], [events[1], events[2]]);
    assert events == [events[0]] + ([events[1]] + [events[2]]);
  }

  /** So it reaches the user twice. */
  lemma UnmarkedSuccessRepeats(w: World, first: seq<Event>, second: seq<Event>)
    requires w == Step(START, Arrives("m", "s"))
    requires first == [Poll("s", ["m"]), Settles(0, Outcome(true, false, true, false)), Returns(0)]
    requires second == [Poll("s", ["m"]), Settles(1, Outcome(true, false, true, false)), Returns(1)]
    ensures Legal(w, first) && Legal(Exec(w, first), second)
    ensures Exec(Exec(w, first), second).reached["m"] == 2
  {
    hide Exec, Legal;
    RoundWithoutMark(w, first);
    RoundWithoutMark(Exec(w, first), second);
  }

  // ------------------------------------------------------------------ one drain, from start to end

  ghost predicate Without(events: seq<Event>, e: Event) {
    e !in events
  }

  /** What `call` has attempted between two states, and what that adds to the tries of its session's messages. */
  ghost predicate Progressed(w: World, w': World, call: nat) {
    && call in w.drains && call in w'.drains
    && var (d, d') := (w.drains[call], w'.drains[call]);
    && d'.session == d.session && d'.undelivered == d.undelivered && (d'.aborted ==> d.aborted)
    && d.next <= d'.next <= |d.undelivered|
    && forall id :: id in w.home && w.home[id] == d.session ==>
         w'.tries[id] == w.tries[id] + multiset(d.undelivered[d.next..d'.next])[id]
  }

  lemma StepOfDrain(w: World, e: Event, call: nat)
    requires Inv(w) && Possible(w, e) && call in w.drains && e != Returns(call)
    requires e.Settles? ==> !e.outcome.failMarkThrows
    ensures Progressed(w, Step(w, e), call)
  {
    var d := w.drains[call];
    assert DrainOk(w, d) && call < w.calls;
    if e.Settles? {
      SettleOfDrain(w, e.call, e.outcome, call);
    } else {
      hide Inv, NoDuplicates;
      assert d.undelivered[d.next..d.next] == [];
    }
  }

  lemma SettleOfDrain(w: World, other: nat, o: Outcome, call: nat)
    requires Inv(w) && Possible(w, Settles(other, o)) && call in w.drains && !o.failMarkThrows
    ensures Progressed(w, Settle(w, other, o), call)
  {
    var d := w.drains[call];
    assert DrainOk(w, d) && DrainOk(w, w.drains[other]);
    assert other != call ==> w.drains[other].session != d.session;
    SettleTouches(w, other, o);
    hide Guarded, NoDuplicates, Settle;
    if other == call {
      hide DrainsOk, DrainOk;
      assert d.undelivered[d.next..d.next + 1] == [d.undelivered[d.next]];
    } else {
      var id := w.drains[other].undelivered[w.drains[other].next];
      assert id in w.drains[other].undelivered && w.home[id] != d.session;
      hide DrainsOk, DrainOk;
      assert d.undelivered[d.next..d.next] == [];
    }
  }

  lemma ProgressAddsUp(w: World, w1: World, w2: World, call: nat)
    requires Progressed(w, w1, call) && Progressed(w1, w2, call)
    requires forall id :: id in w.home ==> id in w1.home && w1.home[id] == w.home[id]
    ensures Progressed(w, w2, call)
  {
    var d := w.drains[call];
    var (m, n) := (w1.drains[call].next, w2.drains[call].next);
    assert d.undelivered[d.next..n] == d.undelivered[d.next..m] + d.undelivered[m..n];
  }

  /** From any moment of a drain to any later one before it returns, and whatever other drains and polls do, the
      messages of its session are attempted in list order, each once, whether they fail or not: a failing message
      does not hold up those after it. */
  lemma {:induction false} FailuresDoNotBlock(w: World, events: seq<Event>, call: nat)
    requires Inv(w) && Legal(w, events) && FailMarksStick(events) && Without(events, Returns(call))
    requires call in w.drains
    ensures Progressed(w, Exec(w, events), call)
    decreases |events|
  {
    hide Possible, Step, Guarded;
    var d := w.drains[call];
    assert DrainOk(w, d);
    hide NoDuplicates, DrainsOk, Progressed;
    if events == [] {
      NoProgress(w, call);
    } else {
      assert forall e :: e in events[1..] ==> e in events;
      assert events[0] in events;
      StepOfDrain(w, events[0], call);
      StepKeeps(w, events[0]);
      var w1 := Step(w, events[0]);
      assert call in w1.drains by { ProgressKeepsDrain(w, w1, call); }
      FailuresDoNotBlock(w1, events[1..], call);
      HomesStay(w, events[0]);
      ProgressAddsUp(w, w1, Exec(w1, events[1..]), call);
    }
  }

  lemma NoProgress(w: World, call: nat)
    requires call in w.drains && DrainOk(w, w.drains[call])
    ensures Progressed(w, w, call)
  {}

  lemma ProgressKeepsDrain(w: World, w': World, call: nat)
    requires Progressed(w, w', call)
    ensures call in w'.drains
  {}

  lemma HomesStay(w: World, e: Event)
    requires Possible(w, e)
    ensures forall id :: id in w.home ==> id in Step(w, e).home && Step(w, e).home[id] == w.home[id]
  {}

  // ------------------------------------------------------------------ which mark a message gets

  /** What the settled attempts of a message amount to: how many went through, how many had an error, and whether one of
      the latter, the third or a later one, could write the failure down. */
  datatype Tally = Tally(clean: nat, errors: nat, gaveUp: bool)

  const NO_TALLY := Tally(0, 0, false)

  /** The settlement of an attempt at `id`. */
  predicate SettlesOne(w: World, e: Event, id: string)
    requires Possible(w, e)
  {
    e.Settles? && w.drains[e.call].undelivered[w.drains[e.call].next] == id
  }

  function Tallied(t: Tally, o: Outcome): Tally {
    if !o.threw && !o.markThrows then t.(clean := t.clean + 1)
    else t.(errors := t.errors + 1, gaveUp := t.gaveUp || (t.errors + 1 >= 3 && !o.failMarkThrows))
  }

  /** The tally of the run's events for one message, added to `t`. */
  ghost function TallyOf(w: World, events: seq<Event>, id: string, t: Tally): Tally
    requires Legal(w, events)
    decreases |events|
  {
    if events == [] then t
    else
      var t' := if SettlesOne(w, events[0], id) then Tallied(t, events[0].outcome) else t;
      TallyOf(Step(w, events[0]), events[1..], id, t')
  }

  ghost predicate TallyOk(w: World, id: string, t: Tally) {
    && w.tries[id] == t.clean + t.errors
    && if id !in w.marks then t.clean == 0 && !t.gaveUp && Attempts(w, id) == t.errors
       else if w.marks[id] == Delivered then t.clean == 1 && !t.gaveUp
       else t.clean == 0 && t.gaveUp
  }

  lemma SettleKeepsTally(w: World, call: nat, o: Outcome, id: string, t: Tally)
    requires call in w.drains && !w.drains[call].Over()
    requires w.drains[call].undelivered[w.drains[call].next] !in w.marks
    requires TallyOk(w, id, t)
    ensures var here := w.drains[call].undelivered[w.drains[call].next] == id;
            TallyOk(Settle(w, call, o), id, if here then Tallied(t, o) else t)
  {}

  lemma StepKeepsTally(w: World, e: Event, id: string, t: Tally)
    requires Inv(w) && Possible(w, e) && TallyOk(w, id, t)
    ensures TallyOk(Step(w, e), id, if SettlesOne(w, e, id) then Tallied(t, e.outcome) else t)
  {
    if e.Settles? {
      CurrentIsUnmarked(w, e.call);
      hide Inv, TallyOk, Settle, Tallied;
      SettleKeepsTally(w, e.call, e.outcome, id, t);
    } else {
      hide Inv;
    }
  }

  lemma {:induction false} RunKeepsTally(w: World, events: seq<Event>, id: string, t: Tally)
    requires Inv(w) && Legal(w, events) && TallyOk(w, id, t)
    ensures TallyOk(Exec(w, events), id, TallyOf(w, events, id, t))
    decreases |events|
  {
    hide Inv, Possible, Step, TallyOk, Tallied;
    if events == [] {
    } else {
      var t' := if SettlesOne(w, events[0], id) then Tallied(t, events[0].outcome) else t;
      StepKeeps(w, events[0]);
      StepKeepsTally(w, events[0], id, t);
      RunKeepsTally(Step(w, events[0]), events[1..], id, t');
    }
  }

  lemma {:induction false} TallyWhileMarksStick(w: World, events: seq<Event>, id: string, t: Tally)
    requires Legal(w, events) && FailMarksStick(events) && (t.gaveUp <==> t.errors >= 3)
    ensures var t' := TallyOf(w, events, id, t);
            t'.gaveUp <==> t'.errors >= 3
    decreases |events|
  {
    hide Possible, Step;
    if events == [] {
    } else {
      assert events[0] in events && forall e :: e in events[1..] ==> e in events;
      var t' := if SettlesOne(w, events[0], id) then Tallied(t, events[0].outcome) else t;
      TallyWhileMarksStick(Step(w, events[0]), events[1..], id, t');
    }
  }

  /** In every run, whatever fails: a message is marked as delivered if and only if an attempt at it settled without an
      error, and as failed if and only if its third attempt or a later one had an error that could be written down. */
  lemma MarksTell(events: seq<Event>, id: string)
    requires Legal(START, events)
    ensures var (w, t) := (Exec(START, events), TallyOf(START, events, id, NO_TALLY));
            && (id in w.marks && w.marks[id] == Delivered <==> t.clean >= 1)
            && (id in w.marks && w.marks[id] == Failed <==> t.gaveUp)
            && w.tries[id] == t.clean + t.errors && t.clean <= 1
  {
    hide Inv;
    assert Inv(START) by {
      StartInv();
    }
    assert TallyOk(START, id, NO_TALLY);
    RunKeepsTally(START, events, id, NO_TALLY);
  }

  lemma StartInv()
    ensures Inv(START)
  {}

  /** While failure marks can be written, a message is marked as failed if and only if exactly three attempts at it have
      settled and each had an error. */
  lemma FailedAfterThree(events: seq<Event>, id: string)
    requires Legal(START, events) && FailMarksStick(events)
    ensures var (w, t) := (Exec(START, events), TallyOf(START, events, id, NO_TALLY));
            id in w.marks && w.marks[id] == Failed <==> w.tries[id] == 3 && t.errors == 3 && t.clean == 0
  {
    hide Inv, Legal, Exec, TallyOf;
    MarksTell(events, id);
    TallyWhileMarksStick(START, events, id, NO_TALLY);
    ThreeAttemptsOneMark(events, id);
  }

  /** A drain is left before its list is done if and only if the failure of a third or later attempt cannot be written
      down; else it goes on to the next message, whatever came of this one. */
  lemma DrainLeftExactly(w: World, call: nat, o: Outcome)
    requires Inv(w) && Possible(w, Settles(call, o))
    ensures var (id, d) := (w.drains[call].undelivered[w.drains[call].next], Settle(w, call, o).drains[call]);
            && (d.aborted <==> (o.threw || o.markThrows) && Attempts(w, id) >= 2 && o.failMarkThrows)
            && d.next == w.drains[call].next + 1
  {}
}
