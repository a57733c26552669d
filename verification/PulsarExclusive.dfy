/** What the Pulsar backend's subscriptions guarantee over every run, and where a
    tombstone can outlive its reason. */
module PulsarExclusive {
  import opened Options
  import opened PulsarPumps
  import opened PulsarRuns

  function Empty(): State {
    State([], [], map[], map[], false, 0, None, {})
  }

  lemma EmptyOk()
    ensures Ok(Empty())
  {
  }

  ghost predicate Legal(s: State, events: seq<Event>)
    decreases |events|
  {
    events == [] || (Numbered(s) && Enabled(s, events[0]) && Legal(Step(s, events[0]), events[1..]))
  }

  ghost function Run(s: State, events: seq<Event>): State
    requires Legal(s, events)
    decreases |events|
  {
    if events == [] then s else Run(Step(s, events[0]), events[1..])
  }

  lemma {:induction false} RunKeeps(s: State, events: seq<Event>)
    requires Ok(s) && Legal(s, events)
    ensures Ok(Run(s, events))
    decreases |events|
  {
    hide Ok, Step, Numbered, Enabled;
    if events != [] {
      StepKeeps(s, events[0]);
      RunKeeps(Step(s, events[0]), events[1..]);
    }
  }

  lemma OneOccupied(s: State, p: nat, q: nat)
    requires Ok(s) && p < |s.pumps| && q < |s.pumps| && s.pumps[p].topic == s.pumps[q].topic
    requires Occupied(s, p) && Occupied(s, q)
    ensures p == q
  {
    hide PumpsOk, RetirementsOk, FencingOk, LiveNumbers, TombNumbers, OpenNumbers, StageNumbers;
  }

  lemma NoneOccupied(s: State, t: Topic, launch: Launch, p: nat)
    requires Ok(s) && Enabled(s, CreatePump(t, launch)) && p < |s.pumps| && s.pumps[p].topic == t
    ensures !Occupied(s, p)
  {
    hide PumpsOk, RetirementsOk, FencingOk, LiveNumbers, OpenNumbers, StageNumbers;
  }

  /** The subscription of this pump returned a consumer, which its worker has passed on. */
  predicate HadConsumer(s: State, p: nat)
    requires Numbered(s) && p < |s.pumps|
  {
    s.pumps[p].published || Attached(s, p)
  }

  /** Some close of the pump's consumer has returned. */
  predicate SomeCloseReturned(s: State, p: nat)
    requires Numbered(s) && p < |s.pumps|
  {
    s.pumps[p].retirement.Some? && s.retirements[s.pumps[p].retirement.value].Closed()
  }

  lemma FreeMeansClosed(s: State, p: nat)
    requires Ok(s) && p < |s.pumps| && !Occupied(s, p) && HadConsumer(s, p)
    ensures SomeCloseReturned(s, p)
  {
    At(s, p);
    hide PumpsOk, RetirementsOk, Covered, OwnTomb, FencingOk, LiveOk;
  }

  /** The pump takes part in the topic's subscription. */
  predicate Occupies(s: State, p: nat, t: Topic) {
    p < |s.pumps| && s.pumps[p].topic == t && Occupied(s, p)
  }

  /** Subscription exclusivity.  In every run, whatever the poll failures, disconnects,
      reconnects, late subscribe results and failed thread starts: of the pumps of a topic
      at most one is subscribing or has a consumer on which no close has returned; and a
      new subscription of the topic starts only when there is none, and on every earlier
      consumer some close has returned.  A second close of the same consumer may still be
      out; `PulsarOverlap` says when. */
  lemma SubscriptionExclusive(events: seq<Event>, t: Topic)
    requires Legal(Empty(), events)
    ensures var s := Run(Empty(), events);
            && Numbered(s)
            && (forall p, q :: Occupies(s, p, t) && Occupies(s, q, t) ==> p == q)
            && (forall p, launch :: Enabled(s, CreatePump(t, launch)) && 0 <= p < |s.pumps| && s.pumps[p].topic == t ==>
                  !Occupied(s, p) && (HadConsumer(s, p) ==> SomeCloseReturned(s, p)))
  {
    hide Ok, Occupied, Enabled, Numbered, HadConsumer, SomeCloseReturned;
    EmptyOk();
    RunKeeps(Empty(), events);
    var s := Run(Empty(), events);
    OkIsNumbered(s);
    forall p, q | Occupies(s, p, t) && Occupies(s, q, t) ensures p == q {
      OneOccupied(s, p, q);
    }
    forall p, launch | Enabled(s, CreatePump(t, launch)) && 0 <= p < |s.pumps| && s.pumps[p].topic == t
      ensures !Occupied(s, p) && (HadConsumer(s, p) ==> SomeCloseReturned(s, p))
    {
      NoneOccupied(s, t, launch, p);
      if HadConsumer(s, p) { FreeMeansClosed(s, p); }
    }
  }

  // ----- Asking for a topic's pump -----

  /** What `_ensure_receive_pump` answers in one look: a pump, or that the caller must wait
      for a tombstone, or that there is no client. */
  datatype Answer = Serves(pump: nat) | Waits | Disconnected

  function Pruned(s: State, t: Topic): State {
    if t in s.tombs && Unfenced(s, t) then s.(tombs := s.tombs - {t}) else s
  }

  function Ensure(s: State, t: Topic, launch: Launch): (State, Answer) {
    var u := Pruned(s, t);
    if t in s.live && s.live[t] < |s.pumps| && (t !in u.tombs || s.pumps[s.live[t]].retirement == Some(u.tombs[t]))
        then (u, Serves(s.live[t]))
    else if t in u.tombs then (u, Waits)
    else if !s.connected then (u, Disconnected)
    else (Create(u, t, launch), Serves(|s.pumps|))
  }

  /** Asking keeps the invariants.  It adds a pump only when the topic has none and nothing
      of the topic is occupied; a live pump is always served as it is. */
  lemma EnsureKeeps(s: State, t: Topic, launch: Launch)
    requires Ok(s) && LockFree(s)
    ensures var (u, answer) := Ensure(s, t, launch);
            && Ok(u)
            && (t in s.live ==> u.pumps == s.pumps && u.live == s.live && answer in {Serves(s.live[t]), Waits})
            && (answer.Serves? ==> answer.pump < |u.pumps| && u.pumps[answer.pump].topic == t)
            && (|u.pumps| != |s.pumps| ==> forall p :: 0 <= p < |s.pumps| && s.pumps[p].topic == t ==> !Occupied(s, p))
            && (answer == Waits ==> t in s.tombs && !Unfenced(s, t))
  {
    var u := Pruned(s, t);
    assert Ok(u) && LockFree(u) && u.pumps == s.pumps && u.live == s.live by {
      if t in s.tombs && Unfenced(s, t) { PruneKeeps(s, t); }
    }
    OkIsNumbered(u);
    var (v, answer) := Ensure(s, t, launch);
    if |v.pumps| != |s.pumps| {
      CreateAsked(u, s, t, launch);
    }
    hide Ok, Unfenced;
  }

  /** What asking answers, exactly: the topic's live pump if it has one; else that the
      caller must wait, while a tombstone is incomplete; else that there is no client; else a
      new pump. */
  lemma EnsureAnswers(s: State, t: Topic, launch: Launch)
    requires Ok(s) && LockFree(s)
    ensures Ensure(s, t, launch).1
         == if t in s.live then Serves(s.live[t])
            else if !Unfenced(s, t) then Waits
            else if !s.connected then Disconnected
            else Serves(|s.pumps|)
  {
    hide PumpsOk, RetirementsOk, Covered, FencingOk;
  }

  lemma CreateAsked(u: State, s: State, t: Topic, launch: Launch)
    requires Ok(s) && LockFree(s) && Ok(u) && LockFree(u) && u == Pruned(s, t)
    requires t !in u.tombs && u.connected
    requires t in s.live ==> s.live[t] >= |s.pumps|
    ensures Ok(Create(u, t, launch)) && Create(u, t, launch).pumps[|s.pumps|].topic == t
            && |Create(u, t, launch).pumps| == |s.pumps| + 1
    ensures forall p :: 0 <= p < |s.pumps| && s.pumps[p].topic == t ==> !Occupied(s, p)
  {
    OkIsNumbered(s);
    assert t !in s.live;
    CreateKeeps(u, t, launch);
    CreateAdds(u, t, launch);
    forall p | 0 <= p < |s.pumps| && s.pumps[p].topic == t ensures !Occupied(s, p) {
      NoneOccupied(u, t, launch, p);
    }
  }
}
