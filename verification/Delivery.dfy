/** Delivery as the source has it: the guard set and the attempt counts of the module, and the drains suspended at
    their awaits. */
module Delivery {
  import opened DeliveryModel
  import T = DeliveryTheorems

  class Deliverer {
    var inflightDeliveries: set<string>
    var deliveryAttempts: map<string, nat>
    /** The delivered tables of the session databases. */
    var delivered: map<string, Mark>
    /** The local state of each suspended call. */
    var suspended: map<nat, Drain>
    var calls: nat
    ghost var home: map<string, string>
    ghost var tries: multiset<string>
    ghost var reached: multiset<string>
    ghost var marked: multiset<string>

    ghost function View(): World
      reads this
    {
      World(home, inflightDeliveries, deliveryAttempts, delivered, suspended, calls, tries, reached, marked)
    }

    constructor ()
      ensures View() == START && T.Inv(View())
    {
      inflightDeliveries, deliveryAttempts, delivered, suspended, calls := {}, map[], map[], map[], 0;
      home, tries, reached, marked := map[], multiset{}, multiset{}, multiset{};
    }

    /** A message is written to an outbound database. */
    ghost method Arrives(id: string, session: string)
      requires T.Inv(View()) && Possible(View(), Event.Arrives(id, session))
      modifies this`home
      ensures View() == Step(old(View()), Event.Arrives(id, session)) && T.Inv(View())
    {
      T.StepKeeps(View(), Event.Arrives(id, session));
      home := home[id := session];
    }

    /** Up to the first await; `due` is what the query returns. */
    method DeliverSessionMessages(session: string, due: seq<string>)
      requires T.Inv(View()) && Possible(View(), Poll(session, due))
      modifies this`inflightDeliveries, this`suspended, this`calls
      ensures View() == Step(old(View()), Poll(session, due)) && T.Inv(View())
    {
      T.StepKeeps(View(), Poll(session, due));
      if session in inflightDeliveries { return; }
      inflightDeliveries := inflightDeliveries + {session};
      suspended := suspended[calls := Drain(session, Undelivered(due, delivered), 0, false)];
      calls := calls + 1;
    }

    method MarkDelivered(id: string)
      modifies this`delivered, this`marked
      ensures View() == WithMark(old(View()), id, Delivered)
    {
      if id !in delivered { delivered := delivered[id := Delivered]; }
      marked := marked + multiset{id};
    }

    method MarkDeliveryFailed(id: string)
      modifies this`delivered, this`marked
      ensures View() == WithMark(old(View()), id, Failed)
    {
      if id !in delivered { delivered := delivered[id := Failed]; }
      marked := marked + multiset{id};
    }

    /** The body of the loop from its await on; returns whether the loop goes on. */
    method MessageSettles(id: string, o: Outcome) returns (goesOn: bool)
      modifies this`delivered, this`marked, this`deliveryAttempts
      ensures (View(), goesOn) == SettleMessage(old(View()), id, o)
    {
      if !o.threw && !o.markThrows {
        MarkDelivered(id);
        deliveryAttempts := deliveryAttempts - {id};
        return true;
      }
      var attempts := (if id in deliveryAttempts then deliveryAttempts[id] else 0) + 1;
      deliveryAttempts := deliveryAttempts[id := attempts];
      if attempts >= MAX_DELIVERY_ATTEMPTS {
        if o.failMarkThrows { return false; }
        MarkDeliveryFailed(id);
        deliveryAttempts := deliveryAttempts - {id};
      }
      return true;
    }

    /** An await of deliverMessage in call `call` settles. */
    method Settles(call: nat, o: Outcome)
      requires T.Inv(View()) && Possible(View(), Event.Settles(call, o))
      modifies this
      ensures View() == Step(old(View()), Event.Settles(call, o)) && T.Inv(View())
    {
      hide Settle, T.Inv, NoDuplicates;
      T.StepKeeps(View(), Event.Settles(call, o));
      LoopBody(call, o);
    }

    /** One round of the loop, from its await on. */
    method LoopBody(call: nat, o: Outcome)
      requires call in suspended && !suspended[call].Over()
      modifies this
      ensures View() == Settle(old(View()), call, o)
    {
      hide SettleMessage;
      var d := suspended[call];
      var id := d.undelivered[d.next];
      var goesOn := MessageSettles(id, o);
      suspended := suspended[call := d.(next := d.next + 1, aborted := !goesOn)];
      tries := tries + multiset{id};
      if o.toUser { reached := reached + multiset{id}; }
    }

    /** The finally block of deliverSessionMessages. */
    method Returns(call: nat)
      requires T.Inv(View()) && Possible(View(), Event.Returns(call))
      modifies this`inflightDeliveries, this`suspended
      ensures View() == Step(old(View()), Event.Returns(call)) && T.Inv(View())
    {
      T.StepKeeps(View(), Event.Returns(call));
      inflightDeliveries := inflightDeliveries - {suspended[call].session};
      suspended := suspended - {call};
    }
  }
}
