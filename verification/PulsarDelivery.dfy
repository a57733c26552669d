/** One receive pump's bounded buffer and the settlement of its tokens
    (src/scrapy_extension/backends/pulsar.py).  The SDK's receive, acknowledge and
    negative acknowledge are outcomes given to the steps. */
module PulsarDelivery {
  import opened Options

  type Consumer = nat

  datatype Record = Record(message: nat, consumer: Consumer)

  // ----- The buffer -----

  /** A pump as seen under its locks.  `live` says that it is still its topic's pump in
      the backend's current generation, `cached` is the backend's consumer of the topic,
      and `room` that the worker has found room for the record it is receiving.
      `received` and `handed` record what the worker got and what callers got. */
  datatype Pump = Pump(
    capacity: nat,
    records: seq<Record>,
    accepting: bool,
    live: bool,
    failed: bool,
    consumer: Option<Consumer>,
    cached: Option<Consumer>,
    room: bool,
    received: seq<Record>,
    handed: seq<Record>)

  datatype Reception = Message(message: nat) | Timeout | Failure

  datatype Taken = Handed(record: Record) | Nothing | PumpFailed

  function New(capacity: nat): Pump {
    Pump(capacity, [], true, true, false, None, None, false, [], [])
  }

  predicate IsLive(p: Pump) {
    p.accepting && p.live
  }

  /** Publishing the consumer in `_run_receive_pump`. */
  function Publish(p: Pump, c: Consumer): Pump {
    if IsLive(p) then p.(consumer := Some(c), cached := Some(c)) else p
  }

  /** The worker's wait for room, once it is over. */
  function CheckRoom(p: Pump): Pump {
    p.(room := p.accepting && |p.records| < p.capacity)
  }

  /** What the worker does with the outcome of one receive. */
  function Deliver(p: Pump, r: Reception): Pump
    requires p.consumer.Some?
  {
    var q := p.(room := false);
    match r
    case Timeout => q
    case Failure => if IsLive(p) && p.cached == p.consumer then q.(failed := true) else q
    case Message(m) =>
      var record := Record(m, p.consumer.value);
      var got := q.(received := p.received + [record]);
      if IsLive(p) && p.cached == p.consumer then got.(records := p.records + [record]) else got
  }

  /** One look of `_receive` under both locks. */
  function Take(p: Pump): (Pump, Taken) {
    if !IsLive(p) then (p, Nothing)
    else if p.records != [] then
      var record := p.records[0];
      var q := p.(records := p.records[1..]);
      if p.consumer.None? || p.cached != p.consumer || p.consumer != Some(record.consumer) then (q, Nothing)
      else (q.(handed := p.handed + [record]), Handed(record))
    else if p.failed then (p.(accepting := false, live := false, records := [], cached := None), PumpFailed)
    else (p, Nothing)
  }

  /** What `disconnect` does to the pump. */
  function Fence(p: Pump): Pump {
    p.(accepting := false, live := false, cached := None)
  }

  function Discard(p: Pump): Pump {
    p.(records := [])
  }

  /** The buffer's invariant. */
  predicate Good(p: Pump) {
    && |p.records| <= p.capacity
    && p.handed <= p.received
    && (IsLive(p) ==> p.received == p.handed + p.records && p.cached == p.consumer)
    && (p.consumer.None? ==> p.received == [] && p.records == [] && !p.room)
    && (forall i :: 0 <= i < |p.records| ==> p.consumer == Some(p.records[i].consumer))
    && (p.room && p.accepting ==> |p.records| < p.capacity)
    && (p.accepting ==> p.live)
  }

  datatype Event =
    | Publishes(consumer: Consumer)
    | ChecksRoom
    | Delivers(reception: Reception)
    | Takes
    | Fences
    | Discards

  /** The worker publishes once, looks for room only with a consumer, and receives only
      after it has found room; buffers are discarded after the fence. */
  predicate Enabled(p: Pump, e: Event) {
    match e
    case Publishes(_) => p.consumer.None?
    case ChecksRoom => p.consumer.Some?
    case Delivers(_) => p.consumer.Some? && p.room
    case Discards => !p.accepting
    case _ => true
  }

  function Step(p: Pump, e: Event): Pump
    requires Enabled(p, e)
  {
    match e
    case Publishes(c) => Publish(p, c)
    case ChecksRoom => CheckRoom(p)
    case Delivers(r) => Deliver(p, r)
    case Takes => Take(p).0
    case Fences => Fence(p)
    case Discards => Discard(p)
  }

  predicate Continues(p: Pump, q: Pump) {
    && p.handed <= q.handed && p.received <= q.received
    && (!IsLive(p) ==> q.handed == p.handed && !IsLive(q))
  }

  lemma DeliverKeeps(p: Pump, r: Reception)
    requires Good(p) && Enabled(p, Delivers(r))
    ensures Good(Deliver(p, r)) && Continues(p, Deliver(p, r))
  {
  }

  lemma TakeKeeps(p: Pump)
    requires Good(p)
    ensures Good(Take(p).0) && Continues(p, Take(p).0)
    ensures IsLive(p) && p.records != [] ==> Take(p).1 == Handed(p.received[|p.handed|])
  {
  }

  lemma StepKeeps(p: Pump, e: Event)
    requires Good(p) && Enabled(p, e)
    ensures Good(Step(p, e)) && Continues(p, Step(p, e))
    ensures e == Takes && IsLive(p) && p.records != [] ==> Take(p).1 == Handed(p.received[|p.handed|])
  {
    hide Deliver, Take;
    match e
    case Delivers(r) => DeliverKeeps(p, r);
    case Takes => TakeKeeps(p);
    case _ =>
  }

  ghost predicate Legal(p: Pump, events: seq<Event>)
    decreases |events|
  {
    events == [] || (Enabled(p, events[0]) && Legal(Step(p, events[0]), events[1..]))
  }

  ghost function Run(p: Pump, events: seq<Event>): Pump
    requires Legal(p, events)
    decreases |events|
  {
    if events == [] then p else Run(Step(p, events[0]), events[1..])
  }

  /** Over every run, from any good pump: the buffer stays within its capacity; what
      callers got is an in-order prefix of what the worker received, each record once;
      and a pump that has been fenced hands out nothing more. */
  lemma {:induction false} RunKeeps(p: Pump, events: seq<Event>)
    requires Good(p) && Legal(p, events)
    ensures var q := Run(p, events);
            && Good(q) && |q.records| <= q.capacity && q.capacity == p.capacity
            && p.handed <= q.handed <= q.received
            && (!IsLive(p) ==> q.handed == p.handed)
    decreases |events|
  {
    hide Good, IsLive;
    if events != [] {
      StepKeeps(p, events[0]);
      assert Step(p, events[0]).capacity == p.capacity;
      RunKeeps(Step(p, events[0]), events[1..]);
    }
    GoodBounds(Run(p, events));
  }

  lemma GoodBounds(p: Pump)
    requires Good(p)
    ensures |p.records| <= p.capacity && p.handed <= p.received
  {
  }

  /** While the pump is live nothing is lost between the worker and the callers. */
  lemma NothingLost(capacity: nat, events: seq<Event>)
    requires Legal(New(capacity), events)
    ensures var q := Run(New(capacity), events);
            && |q.records| <= capacity && q.handed <= q.received
            && (IsLive(q) ==> q.received == q.handed + q.records)
  {
    RunKeeps(New(capacity), events);
  }

  /** A live pump with records serves them: the next look hands out the first record not
      yet handed out. */
  lemma NextInOrder(capacity: nat, events: seq<Event>)
    requires Legal(New(capacity), events)
    requires var q := Run(New(capacity), events); IsLive(q) && q.records != []
    ensures var q := Run(New(capacity), events);
            |q.handed| < |q.received| && Take(q).1 == Handed(q.received[|q.handed|])
  {
    RunKeeps(New(capacity), events);
    StepKeeps(Run(New(capacity), events), Takes);
  }

  // ----- Settlement -----

  datatype Settlement = Pending | Acked | Nacked | Stale

  datatype Action = Ack | Nack

  /** One call of ack or nack with the token: whether the token's consumer is still the
      generation's own, and whether the broker action it then runs succeeds. */
  datatype Attempt = Attempt(action: Action, owned: bool, succeeds: bool)

  datatype Outcome = Completed | AlreadyTerminal | Raised

  function TerminalOf(a: Attempt): Settlement {
    if !a.owned then Stale else if a.action == Ack then Acked else Nacked
  }

  /** `_settle`: the broker action runs only from `Pending`; a failure restores it. */
  function Settle(state: Settlement, a: Attempt): (Settlement, Outcome) {
    if state != Pending then (state, AlreadyTerminal)
    else if a.owned && !a.succeeds then (Pending, Raised)
    else (TerminalOf(a), Completed)
  }

  function After(state: Settlement, attempts: seq<Attempt>): Settlement
    decreases attempts
  {
    if attempts == [] then state else After(Settle(state, attempts[0]).0, attempts[1..])
  }

  /** How many broker actions succeeded. */
  function Successes(state: Settlement, attempts: seq<Attempt>): nat
    decreases attempts
  {
    if attempts == [] then 0
    else
      (if attempts[0].owned && Settle(state, attempts[0]).1 == Completed then 1 else 0)
      + Successes(Settle(state, attempts[0]).0, attempts[1..])
  }

  lemma {:induction false} TerminalStays(state: Settlement, attempts: seq<Attempt>)
    requires state != Pending
    ensures After(state, attempts) == state && Successes(state, attempts) == 0
    decreases attempts
  {
    if attempts != [] {
      TerminalStays(state, attempts[1..]);
    }
  }

  predicate Fails(a: Attempt) {
    a.owned && !a.succeeds
  }

  /** At most one broker action of a token ever succeeds, whatever the mix of acks and
      nacks.  The token stays pending, and so can be retried, exactly as long as every
      attempt has failed; the first attempt that does not fail decides its state. */
  lemma {:induction false} AtMostOneSuccess(attempts: seq<Attempt>)
    ensures Successes(Pending, attempts) <= 1
    ensures After(Pending, attempts) == Pending <==> forall i :: 0 <= i < |attempts| ==> Fails(attempts[i])
    ensures forall i ::
              (0 <= i < |attempts| && !Fails(attempts[i]) && forall j :: 0 <= j < i ==> Fails(attempts[j])) ==>
              After(Pending, attempts) == TerminalOf(attempts[i])
    decreases attempts
  {
    if attempts != [] {
      var rest := attempts[1..];
      assert forall i :: 0 <= i < |rest| ==> rest[i] == attempts[i + 1];
      if Fails(attempts[0]) {
        AtMostOneSuccess(rest);
        forall i | 0 <= i < |attempts| && !Fails(attempts[i]) && forall j :: 0 <= j < i ==> Fails(attempts[j])
          ensures After(Pending, attempts) == TerminalOf(attempts[i])
        {
          assert rest[i - 1] == attempts[i];
          assert forall j :: 0 <= j < i - 1 ==> rest[j] == attempts[j + 1];
        }
      } else {
        TerminalStays(TerminalOf(attempts[0]), rest);
      }
    }
  }

  lemma {:induction false} PendingWhile(attempts: seq<Attempt>)
    ensures (forall i :: 0 <= i < |attempts| ==> Fails(attempts[i])) <==> After(Pending, attempts) == Pending
    decreases attempts
  {
    if attempts != [] {
      PendingWhile(attempts[1..]);
      if Fails(attempts[0]) {
        assert forall i :: 1 <= i < |attempts| ==> attempts[i] == attempts[1..][i - 1];
      } else {
        TerminalStays(TerminalOf(attempts[0]), attempts[1..]);
      }
    }
  }

  /** What every attempt is told and leaves behind.  After attempts that all failed, one that
      fails raises and leaves the token pending, one whose consumer is gone finds it stale,
      and an ack or nack that works settles it as such; any attempt after that is refused and
      changes nothing. */
  lemma EachAttempt(before: seq<Attempt>, a: Attempt)
    ensures var state := After(Pending, before);
            var (next, outcome) := Settle(state, a);
            if exists i :: 0 <= i < |before| && !Fails(before[i]) then next == state && outcome == AlreadyTerminal
            else if !a.owned then next == Stale && outcome == Completed
            else if !a.succeeds then next == Pending && outcome == Raised
            else next == (match a.action case Ack => Acked case Nack => Nacked) && outcome == Completed
  {
    PendingWhile(before);
  }

  /** A token as `pop_with_ack` issues it. */
  datatype Token = Token(topic: string, consumer: Option<Consumer>, generation: Option<nat>)

  /** `_consumer_for_token`; `single` is the historical single-consumer state. */
  function ConsumerFor(token: Token, consumers: map<string, Consumer>, generation: Option<nat>,
                       single: Option<Consumer>, singleTopic: Option<string>): Option<Consumer> {
    var consumer := if token.topic in consumers then Some(consumers[token.topic]) else None;
    if token.generation.Some? && token.generation != generation then None
    else if token.generation.None? && generation.Some? && token.consumer.None? then None
    else if token.consumer.Some? then (if consumer == token.consumer then consumer else None)
    else if consumer.Some? then consumer
    else if singleTopic.None? || singleTopic == Some(token.topic) then single
    else None
  }

  /** Which consumer settles a token.  One of another generation never does; a token that
      names neither a consumer nor a generation is good only where there are no generations;
      one that names its consumer settles through that one, while it is its topic's; any
      other through its topic's, or the single historical one. */
  lemma ConsumerExactly(token: Token, consumers: map<string, Consumer>, generation: Option<nat>,
                        single: Option<Consumer>, singleTopic: Option<string>, x: Consumer)
    ensures ConsumerFor(token, consumers, generation, single, singleTopic) == Some(x) <==>
              && (token.generation.Some? ==> generation == token.generation)
              && (token.generation.None? && token.consumer.None? ==> generation.None?)
              && (token.consumer.Some? ==> token.consumer == Some(x) && token.topic in consumers)
              && (token.topic in consumers ==> consumers[token.topic] == x)
              && (token.topic !in consumers ==> single == Some(x) && singleTopic in {None, Some(token.topic)})
  {
  }

  /** One call of ack or nack with a token, in the generation it leases. */
  datatype Call = Call(action: Action, consumers: map<string, Consumer>, generation: Option<nat>,
                       single: Option<Consumer>, singleTopic: Option<string>, succeeds: bool)

  function AttemptOf(token: Token, c: Call): Attempt {
    Attempt(c.action, ConsumerFor(token, c.consumers, c.generation, c.single, c.singleTopic).Some?, c.succeeds)
  }

  function AttemptsOf(token: Token, calls: seq<Call>): seq<Attempt> {
    seq(|calls|, i requires 0 <= i < |calls| => AttemptOf(token, calls[i]))
  }

  /** The call reaches the consumer that delivered the token, in the generation that
      issued it. */
  predicate ReachesItsOwner(token: Token, c: Call) {
    c.generation == token.generation && token.topic in c.consumers && Some(c.consumers[token.topic]) == token.consumer
  }

  /** Call `i` succeeds with the token's owner, and those before it failed with it. */
  predicate Decides(token: Token, calls: seq<Call>, i: nat) {
    && i < |calls| && ReachesItsOwner(token, calls[i]) && calls[i].succeeds
    && forall j :: 0 <= j < i ==> ReachesItsOwner(token, calls[j]) && !calls[j].succeeds
  }

  predicate Decided(token: Token, calls: seq<Call>) {
    exists i: nat :: i < |calls| && Decides(token, calls, i)
  }

  /** A token of a pump's delivery, whatever calls are made with it in whatever
      generations: at most one broker action succeeds, and if one does, it is the first
      call that does not fail, through the consumer that delivered the record and in the
      generation that issued the token. */
  lemma {:induction false} SettledByItsOwner(topic: string, c: Consumer, issued: nat, calls: seq<Call>)
    ensures var token := Token(topic, Some(c), Some(issued));
            && Successes(Pending, AttemptsOf(token, calls)) <= 1
            && (Successes(Pending, AttemptsOf(token, calls)) == 1 <==>
                  Decided(token, calls))
  {
    var token := Token(topic, Some(c), Some(issued));
    var attempts := AttemptsOf(token, calls);
    if calls != [] {
      var rest := calls[1..];
      assert attempts[1..] == AttemptsOf(token, rest);
      SettledByItsOwner(topic, c, issued, rest);
      assert attempts[0].owned <==> ReachesItsOwner(token, calls[0]);
      if Fails(attempts[0]) {
        assert forall i :: 0 <= i < |rest| ==> rest[i] == calls[i + 1];
        OneLater(token, calls);
      } else {
        TerminalStays(TerminalOf(attempts[0]), attempts[1..]);
        if ReachesItsOwner(token, calls[0]) { assert Decides(token, calls, 0); }
      }
    }
  }

  /** The call that decides, one place later. */
  lemma OneLater(token: Token, calls: seq<Call>)
    requires calls != [] && ReachesItsOwner(token, calls[0]) && !calls[0].succeeds
    ensures Decided(token, calls) <==> Decided(token, calls[1..])
  {
    var rest := calls[1..];
    if Decided(token, rest) {
      var i: nat :| i < |rest| && Decides(token, rest, i);
      assert forall j :: 0 <= j < |rest| ==> rest[j] == calls[j + 1];
      assert Decides(token, calls, i + 1);
    }
    if Decided(token, calls) {
      var i: nat :| i < |calls| && Decides(token, calls, i);
      assert forall j :: 0 <= j < |rest| ==> rest[j] == calls[j + 1];
      assert Decides(token, rest, i - 1);
    }
  }
}
