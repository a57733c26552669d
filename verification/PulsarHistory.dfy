/** What a receive pump answers, told from the events of its run alone. */
module PulsarHistory {
  import opened Options
  import opened PulsarDelivery

  function Last(events: seq<Event>): Event
    requires events != []
  {
    events[|events| - 1]
  }

  function Before(events: seq<Event>): seq<Event>
    requires events != []
  {
    events[..|events| - 1]
  }

  /** The consumer the worker published. */
  function Published(events: seq<Event>): Option<Consumer> {
    if events == [] then None
    else if Last(events).Publishes? then Some(Last(events).consumer)
    else Published(Before(events))
  }

  /** The messages the worker received, in order. */
  function Messages(events: seq<Event>): seq<nat> {
    if events == [] then []
    else if Last(events).Delivers? && Last(events).reception.Message?
    then Messages(Before(events)) + [Last(events).reception.message]
    else Messages(Before(events))
  }

  /** Some receive has failed. */
  predicate Broken(events: seq<Event>) {
    Delivers(Failure) in events
  }

  /** How many of them callers got: one at each look while some were waiting. */
  function Given(events: seq<Event>): nat {
    if events == [] then 0
    else if Last(events) == Takes && !Over(Before(events)) && Given(Before(events)) < |Messages(Before(events))|
    then Given(Before(events)) + 1
    else Given(Before(events))
  }

  /** The pump has been fenced, or a caller has been told that it failed. */
  predicate Over(events: seq<Event>) {
    && events != []
    && (|| Over(Before(events))
        || Last(events) == Fences
        || (Last(events) == Takes && Broken(Before(events)) && Given(Before(events)) >= |Messages(Before(events))|))
  }

  /** The look of a caller after these events. */
  function Answer(events: seq<Event>): Taken {
    if Over(events) || Published(events).None? then Nothing
    else if Given(events) < |Messages(events)| then
      Handed(Record(Messages(events)[Given(events)], Published(events).value))
    else if Broken(events) then PumpFailed
    else Nothing
  }

  /** The pump is as its history says. */
  predicate Tracks(p: Pump, events: seq<Event>) {
    && Good(p)
    && (IsLive(p) <==> !Over(events))
    && (!Over(events) ==>
          && p.consumer == Published(events) && (p.failed <==> Broken(events))
          && |p.received| == |Messages(events)| && |p.handed| == Given(events)
          && (p.consumer.None? ==> Messages(events) == [] && !Broken(events))
          && forall i :: 0 <= i < |p.received| ==>
               p.consumer.Some? && p.received[i] == Record(Messages(events)[i], p.consumer.value))
  }

  lemma {:induction false} LegalPrefix(p: Pump, events: seq<Event>)
    requires Legal(p, events) && events != []
    ensures Legal(p, Before(events)) && Enabled(Run(p, Before(events)), Last(events))
    ensures Run(p, events) == Step(Run(p, Before(events)), Last(events))
    decreases |events|
  {
    hide Step, Enabled;
    if |events| > 1 {
      LegalPrefix(Step(p, events[0]), events[1..]);
      assert Before(events)[1..] == Before(events[1..]);
    } else {
      assert Before(events) == [];
    }
  }

  lemma BrokenStep(events: seq<Event>)
    requires events != []
    ensures Broken(events) <==> Broken(Before(events)) || Last(events) == Delivers(Failure)
  {
    assert events == Before(events) + [Last(events)];
  }

  predicate TracksOn(p: Pump, events: seq<Event>)
    requires events != [] && Enabled(p, Last(events))
  {
    Tracks(p, Before(events)) ==> Tracks(Step(p, Last(events)), events)
  }

  lemma DeliverTracks(p: Pump, events: seq<Event>)
    requires events != [] && Last(events).Delivers? && Enabled(p, Last(events))
    ensures TracksOn(p, events)
  {
    BrokenStep(events);
    hide Broken;
    if Tracks(p, Before(events)) { DeliverKeeps(p, Last(events).reception); }
    hide Good;
  }

  lemma TakeTracks(p: Pump, events: seq<Event>)
    requires events != [] && Last(events).Takes?
    ensures TracksOn(p, events)
  {
    BrokenStep(events);
    hide Broken;
    if Tracks(p, Before(events)) { TakeKeeps(p); }
  }

  lemma OtherTracks(p: Pump, events: seq<Event>)
    requires events != [] && !Last(events).Takes? && !Last(events).Delivers? && Enabled(p, Last(events))
    ensures TracksOn(p, events)
  {
    BrokenStep(events);
    hide Broken;
    if Tracks(p, Before(events)) { StepKeeps(p, Last(events)); }
  }

  lemma {:induction false} RunTracks(capacity: nat, events: seq<Event>)
    requires Legal(New(capacity), events)
    ensures Tracks(Run(New(capacity), events), events) && Run(New(capacity), events).capacity == capacity
    decreases |events|
  {
    hide Step, Enabled, Tracks;
    if events == [] {
      NewTracks(capacity);
    } else {
      LegalPrefix(New(capacity), events);
      RunTracks(capacity, Before(events));
      var p := Run(New(capacity), Before(events));
      SameCapacity(p, Last(events));
      match Last(events)
      case Takes => TakeTracks(p, events);
      case Delivers(_) => DeliverTracks(p, events);
      case _ => OtherTracks(p, events);
    }
  }

  lemma NewTracks(capacity: nat)
    ensures Tracks(New(capacity), [])
  {
  }

  lemma SameCapacity(p: Pump, e: Event)
    requires Enabled(p, e)
    ensures Step(p, e).capacity == p.capacity
  {
  }

  lemma AnswerIs(p: Pump, events: seq<Event>)
    requires Tracks(p, events)
    ensures Take(p).1 == Answer(events)
    ensures Take(p).1 == PumpFailed ==> !IsLive(Take(p).0)
    ensures CheckRoom(p).room <==> !Over(events) && |Messages(events)| - Given(events) < p.capacity
  {
  }

  /** Exactly what callers are answered.  After any events, a look hands out the first
      message not handed out yet; when none is waiting it reports the pump's failure, which
      ends the pump, if and only if some receive failed; and once the pump is over, because
      it was fenced or its failure reported, there is nothing more.  The worker goes on to
      receive exactly while fewer than `capacity` messages are waiting. */
  lemma AnswersFollowHistory(capacity: nat, events: seq<Event>)
    requires Legal(New(capacity), events)
    ensures var q := Run(New(capacity), events);
            && Take(q).1 == Answer(events)
            && (IsLive(q) <==> !Over(events))
            && (Take(q).1 == PumpFailed ==> !IsLive(Take(q).0))
            && (CheckRoom(q).room <==> !Over(events) && |Messages(events)| - Given(events) < capacity)
  {
    RunTracks(capacity, events);
    hide Tracks, Take, CheckRoom;
    AnswerIs(Run(New(capacity), events), events);
    TracksLive(Run(New(capacity), events), events);
  }

  lemma TracksLive(p: Pump, events: seq<Event>)
    requires Tracks(p, events)
    ensures IsLive(p) <==> !Over(events)
  {
  }
}
