/** Delivery of outbound messages: the two polls call in at any time, and a drain is suspended at each await of the
    adapter. Message ids are unique across sessions. */
module DeliveryModel {
  const MAX_DELIVERY_ATTEMPTS := 3

  datatype Mark = Delivered | Failed

  /** A call of drainSession that is suspended on `undelivered[next]`, or over: its list is done or an error left it. */
  datatype Drain = Drain(session: string, undelivered: seq<string>, next: nat, aborted: bool)
  {
    predicate Over() {
      aborted || next >= |undelivered|
    }

    predicate Attempting(id: string) {
      !aborted && next < |undelivered| && undelivered[next] == id
    }
  }

  /** tries, reached and marked count, per message, the attempts that settled, those that brought it to the user, and
      the calls that marked it. */
  datatype World = World(
    home: map<string, string>,  // the outbound messages and the session each belongs to
    inflight: set<string>,
    attempts: map<string, nat>,
    marks: map<string, Mark>,   // the delivered tables
    drains: map<nat, Drain>,    // calls of deliverSessionMessages that have not returned
    calls: nat,
    tries: multiset<string>,
    reached: multiset<string>,
    marked: multiset<string>)

  /** How an attempt settles: whether the user got the message, whether deliverMessage threw, and whether the
      inserts that may follow throw. */
  datatype Outcome = Outcome(toUser: bool, threw: bool, markThrows: bool, failMarkThrows: bool)

  datatype Event =
    | Arrives(id: string, session: string)
    | Poll(session: string, due: seq<string>)
    | Settles(call: nat, outcome: Outcome)
    | Returns(call: nat)

  const START := World(map[], {}, map[], map[], map[], 0, multiset{}, multiset{}, multiset{})

  function Attempts(w: World, id: string): nat {
    if id in w.attempts then w.attempts[id] else 0
  }

  function Undelivered(due: seq<string>, marks: map<string, Mark>): seq<string> {
    if due == [] then []
    else (if due[0] in marks then [] else [due[0]]) + Undelivered(due[1..], marks)
  }

  /** INSERT OR IGNORE: the first mark stays. */
  function WithMark(w: World, id: string, mark: Mark): World {
    w.(marks := if id in w.marks then w.marks else w.marks[id := mark], marked := w.marked + multiset{id})
  }

  /** The rest of deliverSessionMessages after the synchronous guard, up to the first await. */
  function StartDrain(w: World, session: string, due: seq<string>): World {
    if session in w.inflight then w
    else w.(
      inflight := w.inflight + {session},
      drains := w.drains[w.calls := Drain(session, Undelivered(due, w.marks), 0, false)],
      calls := w.calls + 1)
  }

  /** What one attempt's settlement does to the message; the second result is whether the loop goes on. */
  function SettleMessage(w: World, id: string, o: Outcome): (World, bool) {
    if !o.threw && !o.markThrows then
      (WithMark(w, id, Delivered).(attempts := w.attempts - {id}), true)
    else
      var n := Attempts(w, id) + 1;
      var w' := w.(attempts := w.attempts[id := n]);
      if n < MAX_DELIVERY_ATTEMPTS then (w', true)
      else if o.failMarkThrows then (w', false)
      else (WithMark(w', id, Failed).(attempts := w'.attempts - {id}), true)
  }

  function Settle(w: World, call: nat, o: Outcome): World
    requires call in w.drains && !w.drains[call].Over()
  {
    var d := w.drains[call];
    var id := d.undelivered[d.next];
    var (w', goesOn) := SettleMessage(w, id, o);
    w'.(
      drains := w'.drains[call := d.(next := d.next + 1, aborted := !goesOn)],
      tries := w.tries + multiset{id},
      reached := if o.toUser then w.reached + multiset{id} else w.reached)
  }

  /** The finally block. */
  function Return(w: World, call: nat): World
    requires call in w.drains
  {
    w.(inflight := w.inflight - {w.drains[call].session}, drains := w.drains - {call})
  }

  ghost predicate NoDuplicates(ids: seq<string>) {
    forall i, j :: 0 <= i < j < |ids| ==> ids[i] != ids[j]
  }

  /** Ids are new when they arrive; a query returns rows of its session, each once. */
  ghost predicate Possible(w: World, e: Event) {
    match e
    case Arrives(id, _) => id !in w.home
    case Poll(session, due) => NoDuplicates(due) && forall id :: id in due ==> id in w.home && w.home[id] == session
    case Settles(call, _) => call in w.drains && !w.drains[call].Over()
    case Returns(call) => call in w.drains && w.drains[call].Over()
  }

  function Step(w: World, e: Event): World
    requires Possible(w, e)
  {
    match e
    case Arrives(id, session) => w.(home := w.home[id := session])
    case Poll(session, due) => StartDrain(w, session, due)
    case Settles(call, o) => Settle(w, call, o)
    case Returns(call) => Return(w, call)
  }

  ghost predicate Legal(w: World, events: seq<Event>)
    decreases |events|
  {
    events == [] || (Possible(w, events[0]) && Legal(Step(w, events[0]), events[1..]))
  }

  function Exec(w: World, events: seq<Event>): World
    requires Legal(w, events)
    decreases |events|
  {
    if events == [] then w else Exec(Step(w, events[0]), events[1..])
  }
}
