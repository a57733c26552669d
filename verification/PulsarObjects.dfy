/** The receive pump and the token as the mutable objects they are
    (src/scrapy_extension/backends/pulsar.py), each method against its step in
    PulsarDelivery. */
module PulsarObjects {
  import opened Options
  import D = PulsarDelivery

  class ReceivePump {
    const capacity: nat
    var records: seq<D.Record>
    var accepting: bool
    var live: bool
    var failed: bool
    var consumer: Option<D.Consumer>
    var cached: Option<D.Consumer>
    ghost var room: bool
    ghost var received: seq<D.Record>
    ghost var handed: seq<D.Record>

    ghost function View(): D.Pump
      reads this
    {
      D.Pump(capacity, records, accepting, live, failed, consumer, cached, room, received, handed)
    }

    ghost predicate Valid()
      reads this
    {
      D.Good(View())
    }

    constructor (capacity: nat)
      ensures Valid() && View() == D.New(capacity)
    {
      this.capacity := capacity;
      records, accepting, live, failed := [], true, true, false;
      consumer, cached := None, None;
      room, received, handed := false, [], [];
    }

    method Publish(c: D.Consumer)
      requires Valid() && consumer.None?
      modifies this
      ensures Valid() && View() == D.Publish(old(View()), c)
    {
      ghost var was := View();
      if accepting && live {
        consumer := Some(c);
        cached := Some(c);
      }
      D.StepKeeps(was, D.Publishes(c));
    }

    /** One look of the worker's wait for room; it goes on to receive when `go` holds. */
    method CheckRoom() returns (go: bool)
      requires Valid() && consumer.Some?
      modifies this
      ensures Valid() && View() == D.CheckRoom(old(View()))
      ensures go ==> |records| < capacity
    {
      ghost var was := View();
      go := accepting && |records| < capacity;
      room := go;
      D.StepKeeps(was, D.ChecksRoom);
    }

    method Deliver(r: D.Reception)
      requires Valid() && consumer.Some? && room
      modifies this
      ensures Valid() && View() == D.Deliver(old(View()), r)
    {
      ghost var was := View();
      room := false;
      match r {
        case Timeout =>
        case Failure =>
          if accepting && live && cached == consumer { failed := true; }
        case Message(m) =>
          var record := D.Record(m, consumer.value);
          received := received + [record];
          if accepting && live && cached == consumer { records := records + [record]; }
      }
      D.StepKeeps(was, D.Delivers(r));
    }

    /** Callers get the records in the order received, none twice and none skipped. */
    method Take() returns (taken: D.Taken)
      requires Valid()
      modifies this
      ensures Valid() && (View(), taken) == D.Take(old(View()))
      ensures taken.Handed? ==>
                && old(|handed|) < |received| && taken.record == received[old(|handed|)]
                && handed == old(handed) + [taken.record]
      ensures !taken.Handed? ==> handed == old(handed)
      ensures old(accepting && live && records != []) ==> taken.Handed?
    {
      ghost var was := View();
      if !(accepting && live) {
        taken := D.Nothing;
      } else if records != [] {
        var record := records[0];
        records := records[1..];
        if consumer.None? || cached != consumer || consumer != Some(record.consumer) {
          taken := D.Nothing;
        } else {
          handed := handed + [record];
          taken := D.Handed(record);
        }
      } else if failed {
        accepting, live, records, cached := false, false, [], None;
        taken := D.PumpFailed;
      } else {
        taken := D.Nothing;
      }
      D.StepKeeps(was, D.Takes);
    }

    method Fence()
      requires Valid()
      modifies this
      ensures Valid() && View() == D.Fence(old(View()))
    {
      ghost var was := View();
      accepting, live, cached := false, false, None;
      D.StepKeeps(was, D.Fences);
    }
  }

  /** The token; `actions` counts the broker actions that succeeded. */
  class AckToken {
    var state: D.Settlement
    ghost var actions: nat

    ghost predicate Valid()
      reads this
    {
      actions <= (if state in {D.Acked, D.Nacked} then 1 else 0)
    }

    constructor ()
      ensures Valid() && state == D.Pending && actions == 0
    {
      state, actions := D.Pending, 0;
    }

    /** `_settle` with the action that ack or nack passes to it. */
    method Settle(a: D.Attempt) returns (outcome: D.Outcome)
      requires Valid()
      modifies this
      ensures Valid() && (state, outcome) == D.Settle(old(state), a)
      ensures actions == old(actions) + (if outcome == D.Completed && a.owned then 1 else 0)
      ensures actions <= 1
    {
      if state != D.Pending { return D.AlreadyTerminal; }
      if a.owned && !a.succeeds { return D.Raised; }
      if a.owned { actions := actions + 1; }
      state := D.TerminalOf(a);
      outcome := D.Completed;
    }
  }
}
