/** Two closes of one consumer.  The retirement's thread and the pump's worker can both
    call `close`, the first to return releases the topic, and a new subscription can start
    while the other call is still out.  When exactly, per state and per run. */
module PulsarOverlap {
  import opened Options
  import opened PulsarPumps
  import opened PulsarRuns
  import opened PulsarExclusive
  import opened PulsarStranded

  /** Some close call on the consumer has not returned. */
  predicate Outstanding(x: Retirement) {
    x.thread == Begun || x.worker == Begun
  }

  function TopicOf(s: State, r: nat): Topic
    requires Numbered(s) && r < |s.retirements|
  {
    s.pumps[s.retirements[r].pump].topic
  }

  // ----- How a tombstone changes -----

  predicate Evolves(s: State, e: Event, r: nat, n: Retirement)
    requires r < |s.retirements|
  {
    var x := s.retirements[r];
    || n == x
    || n == x.(completed := true)
    || (e.CloseReturns? && x.CloseOf(e.who) == Begun && n == x.Closes(e.who, Ended))
    || (Adopts(s, e, r) && n == x.(free := false, worker := Begun))
    || (!x.attached && n == x.(attached := true, free := false, worker := Begun))
  }

  /** The pump's worker takes the close of this tombstone upon itself. */
  predicate Adopts(s: State, e: Event, r: nat)
    requires r < |s.retirements|
  {
    && e.AdoptRetirement? && e.p < |s.pumps| && s.pumps[e.p].stage == Saw(Some(r))
    && s.retirements[r].attached && s.retirements[r].free && s.pumps[e.p].published
  }

  ghost predicate EvolvesAll(s: State, e: Event, u: State) {
    && |s.retirements| <= |u.retirements|
    && (forall r :: 0 <= r < |s.retirements| ==> Evolves(s, e, r, u.retirements[r]))
    && (forall r :: |s.retirements| <= r < |u.retirements| ==> u.retirements[r].worker == NotBegun)
  }

  predicate TakesLock(e: Event) {
    e.Publish? || e.PublicationFault? || e.FencePump? || e.CallerTerminal? || e.CreatePump?
  }

  /** A candidate that waits for its publication has at most a placeholder. */
  lemma CandidateUnattached(s: State, p: nat)
    requires Ok(s) && AtStage(s, p, Candidate) && s.pumps[p].retirement.Some?
    ensures s.pumps[p].retirement.value < |s.retirements| && !s.retirements[s.pumps[p].retirement.value].attached
  {
    hide RetirementsOk, Covered, OwnTomb, FencingOk, LiveOk;
  }

  lemma StaleEvolves(s: State, e: Event, p: nat, free: bool, runs: bool, next: Stage)
    requires p < |s.pumps|
    requires s.pumps[p].retirement.Some? ==>
               s.pumps[p].retirement.value < |s.retirements| && !s.retirements[s.pumps[p].retirement.value].attached
    ensures EvolvesAll(s, e, CloseStale(s, p, free, runs, next))
  {
  }

  lemma EntombEvolves(s: State, e: Event, u: State)
    requires u.retirements == s.retirements ||
      exists p, attached, free, runs :: u.retirements == s.retirements + [Tombstone(p, attached, free, runs)]
    ensures EvolvesAll(s, e, u)
  {
  }

  lemma LockedEvolves(s: State, e: Event)
    requires Ok(s) && Numbered(s) && Enabled(s, e) && TakesLock(e)
    ensures EvolvesAll(s, e, Step(s, e))
  {
    hide Ok, Live, Numbered, EvolvesAll, CloseStale;
    if (e.Publish? && !Live(s, e.p)) || e.PublicationFault? {
      if s.pumps[e.p].retirement.Some? { CandidateUnattached(s, e.p); }
      StaleEvolves(s, e, e.p, e.free, e.runs, if e.Publish? then Final else Faulted);
    } else {
      EntombEvolves(s, e, Step(s, e));
    }
  }

  lemma RetirementStep(s: State, e: Event)
    requires Ok(s) && Numbered(s) && Enabled(s, e)
    ensures EvolvesAll(s, e, Step(s, e))
  {
    if TakesLock(e) {
      hide Ok, Numbered, Enabled, Step, EvolvesAll;
      LockedEvolves(s, e);
    } else {
      hide Ok, Live, Numbered, Fence, CloseStale, Terminal, Create;
    }
  }

  // ----- Which tombstones two threads close, over runs -----

  /** Both the thread and the worker have begun to close the consumer. */
  predicate ClosedTwice(s: State, r: nat) {
    r < |s.retirements| && s.retirements[r].thread != NotBegun && s.retirements[r].worker != NotBegun
  }

  /** A worker adopts a tombstone whose thread runs the close as well, or ran it. */
  predicate AdoptsRunning(s: State, e: Event, r: nat) {
    r < |s.retirements| && Adopts(s, e, r) && s.retirements[r].thread != NotBegun
  }

  ghost predicate EverAdoptsRunning(s: State, events: seq<Event>, r: nat)
    requires Legal(s, events)
    decreases |events|
  {
    events != [] && (AdoptsRunning(s, events[0], r) || EverAdoptsRunning(Step(s, events[0]), events[1..], r))
  }

  lemma AdoptedAt(s: State, e: Event, r: nat)
    requires Numbered(s) && Enabled(s, e) && r < |s.retirements| && Adopts(s, e, r)
    ensures r < |Step(s, e).retirements|
            && Step(s, e).retirements[r] == s.retirements[r].(free := false, worker := Begun)
  {
    hide Numbered;
  }

  lemma OnlyAttachedRun(s: State, r: nat)
    requires Ok(s) && r < |s.retirements|
    ensures s.retirements[r].Running() ==> s.retirements[r].attached
    ensures s.retirements[r].free ==> s.retirements[r].worker == NotBegun
    ensures s.retirements[r].pump < |s.pumps|
    ensures var pump := s.pumps[s.retirements[r].pump];
            pump.retirement == Some(r) && (s.retirements[r].attached ==> pump.stage != Candidate)
  {
    TombStage(s, r);
    hide PumpsOk, Covered, OwnTomb, FencingOk, LiveOk, Numbered;
  }

  lemma ClosedTwiceStep(s: State, e: Event, r: nat)
    requires Ok(s) && Numbered(s) && Enabled(s, e)
    ensures ClosedTwice(Step(s, e), r) <==> ClosedTwice(s, r) || AdoptsRunning(s, e, r)
  {
    hide Ok, Numbered, Enabled, Step, Adopts;
    RetirementStep(s, e);
    if r < |s.retirements| {
      OnlyAttachedRun(s, r);
      if Adopts(s, e, r) { AdoptedAt(s, e, r); }
      assert Evolves(s, e, r, Step(s, e).retirements[r]);
    }
  }

  lemma {:induction false} ClosedTwiceIff(s: State, events: seq<Event>, r: nat)
    requires Ok(s) && Legal(s, events)
    ensures ClosedTwice(Run(s, events), r) <==> ClosedTwice(s, r) || EverAdoptsRunning(s, events, r)
    decreases |events|
  {
    hide Ok, Step, Numbered, Enabled, ClosedTwice, AdoptsRunning;
    if events != [] {
      StepKeeps(s, events[0]);
      ClosedTwiceStep(s, events[0], r);
      ClosedTwiceIff(Step(s, events[0]), events[1..], r);
    }
  }

  /** A call that is out alone keeps its consumer open. */
  lemma AloneIsOpen(s: State, r: nat)
    requires Ok(s) && r < |s.retirements| && Outstanding(s.retirements[r]) && !Overlapping(s.retirements[r])
    ensures s.retirements[r].pump < |s.pumps| && Occupied(s, s.retirements[r].pump)
  {
    hide PumpsOk, Covered, OwnTomb, FencingOk, LiveOk;
  }

  lemma OutstandingOverlaps(s: State, r: nat, launch: Launch)
    requires Ok(s) && Numbered(s) && r < |s.retirements| && Enabled(s, CreatePump(TopicOf(s, r), launch))
    ensures Outstanding(s.retirements[r]) <==> Overlapping(s.retirements[r])
  {
    hide Ok, Enabled, Occupied;
    if Outstanding(s.retirements[r]) && !Overlapping(s.retirements[r]) {
      AloneIsOpen(s, r);
      NoneOccupied(s, TopicOf(s, r), launch, s.retirements[r].pump);
    }
  }

  /** Exactly when a subscription starts beside a close call.  In every run, where a new
      subscription of a topic can start, a close call of an earlier consumer of the topic
      has not returned if and only if its worker adopted the close that its retirement's
      thread also ran, and not both calls have returned. */
  lemma OverlapExactly(events: seq<Event>, t: Topic, launch: Launch, r: nat)
    requires Legal(Empty(), events) && Enabled(Run(Empty(), events), CreatePump(t, launch))
    requires var s := Run(Empty(), events);
             r < |s.retirements| && s.retirements[r].pump < |s.pumps| && s.pumps[s.retirements[r].pump].topic == t
    ensures var x := Run(Empty(), events).retirements[r];
            Outstanding(x) <==> EverAdoptsRunning(Empty(), events, r) && !(x.thread == Ended && x.worker == Ended)
  {
    hide Ok, Enabled, Numbered, AdoptsRunning, EverAdoptsRunning;
    EmptyOk();
    RunKeeps(Empty(), events);
    OkIsNumbered(Run(Empty(), events));
    ClosedTwiceIff(Empty(), events, r);
    OutstandingOverlaps(Run(Empty(), events), r, launch);
  }

  // ----- Which tombstones can still come to that -----

  /** Two closes overlap already, or the worker has yet to look and would adopt. */
  predicate CanOverlap(x: Retirement, pump: Pump) {
    && x.thread != NotBegun
    && (Overlapping(x) || (x.worker == NotBegun && x.free && pump.published && !LooksNoMore(pump.stage)))
  }

  /** What a step leaves of a pump: its topic, and what says that its worker will not
      adopt. */
  predicate Settles(s: State, u: State, p: nat)
    requires p < |s.pumps|
  {
    && p < |u.pumps| && u.pumps[p].topic == s.pumps[p].topic
    && (u.pumps[p].published ==> s.pumps[p].published || s.pumps[p].stage == Candidate)
    && (LooksNoMore(s.pumps[p].stage) ==> LooksNoMore(u.pumps[p].stage))
  }

  lemma StalePump(s: State, q: nat, free: bool, runs: bool, next: Stage, p: nat)
    requires p < |s.pumps| && q < |s.pumps| && AtStage(s, q, Candidate)
    requires s.pumps[q].retirement.Some? ==> s.pumps[q].retirement.value < |s.retirements|
    ensures Settles(s, CloseStale(s, q, free, runs, next), p)
  {
    hide Settles, AtStage;
    var u := CloseStale(s, q, free, runs, next);
    match s.pumps[q].retirement
    case None =>
      assert u.pumps == s.pumps[q := s.pumps[q].(retirement := Some(|s.retirements|), stage := next)];
      OneSettles(s, u, q, p);
    case Some(r) =>
      assert u.pumps == s.pumps[q := s.pumps[q].(stage := Closing(r))];
      OneSettles(s, u, q, p);
  }

  lemma OneSettles(s: State, u: State, q: nat, p: nat)
    requires p < |s.pumps| && AtStage(s, q, Candidate) && |u.pumps| == |s.pumps|
    requires u.pumps == s.pumps[q := u.pumps[q]] && u.pumps[q].topic == s.pumps[q].topic
    ensures Settles(s, u, p)
  {
  }

  lemma PumpNumber(s: State, p: nat)
    requires Numbered(s) && p < |s.pumps|
    ensures s.pumps[p].retirement.Some? ==> s.pumps[p].retirement.value < |s.retirements|
  {
  }

  lemma RetirementNumber(s: State, r: nat)
    requires Numbered(s) && r < |s.retirements|
    ensures s.retirements[r].pump < |s.pumps|
  {
  }

  lemma FencePumps(s: State, q: nat, reentrant: bool, free: bool, runs: bool, p: nat)
    requires p < |s.pumps| && q < |s.pumps| && s.fencing.Some?
    ensures Settles(s, Fence(s, q, reentrant, free, runs), p)
  {
  }

  lemma TerminalPumps(s: State, t: Topic, free: bool, runs: bool, p: nat)
    requires p < |s.pumps| && t in s.live && s.live[t] < |s.pumps|
    ensures Settles(s, Terminal(s, t, free, runs), p)
  {
  }

  lemma CreatePumps(s: State, t: Topic, launch: Launch, p: nat)
    requires p < |s.pumps|
    ensures Settles(s, Create(s, t, launch), p)
  {
  }

  lemma LockedPump(s: State, e: Event, p: nat)
    requires Numbered(s) && Enabled(s, e) && TakesLock(e) && p < |s.pumps|
    ensures Settles(s, Step(s, e), p)
  {
    hide Live, Numbered, Fence, CloseStale, Terminal, Create;
    if (e.Publish? && !Live(s, e.p)) || e.PublicationFault? {
      PumpNumber(s, e.p);
      StalePump(s, e.p, e.free, e.runs, if e.Publish? then Final else Faulted, p);
    } else if e.FencePump? {
      FencePumps(s, e.p, e.reentrant, e.free, e.runs, p);
    } else if e.CallerTerminal? {
      TerminalPumps(s, e.topic, e.free, e.runs, p);
    } else if e.CreatePump? {
      CreatePumps(s, e.topic, e.launch, p);
    }
  }

  lemma PumpStep(s: State, e: Event, p: nat)
    requires Numbered(s) && Enabled(s, e) && p < |s.pumps|
    ensures Settles(s, Step(s, e), p)
  {
    if TakesLock(e) {
      hide Numbered, Enabled, Step, Settles;
      LockedPump(s, e, p);
    } else {
      hide Live, Numbered, Fence, CloseStale, Terminal, Create;
    }
  }

  lemma CannotOverlapStep(s: State, e: Event, r: nat)
    requires Ok(s) && Numbered(s) && Enabled(s, e) && r < |s.retirements|
    requires !CanOverlap(s.retirements[r], s.pumps[s.retirements[r].pump])
    ensures Ok(Step(s, e)) && Numbered(Step(s, e)) && r < |Step(s, e).retirements|
    ensures TopicOf(Step(s, e), r) == TopicOf(s, r)
    ensures var u := Step(s, e); !CanOverlap(u.retirements[r], u.pumps[u.retirements[r].pump])
  {
    hide Ok, Numbered, Enabled, Step, LooksNoMore;
    StepKeeps(s, e);
    OkIsNumbered(Step(s, e));
    RetirementStep(s, e);
    OnlyAttachedRun(s, r);
    if Adopts(s, e, r) { AdoptsOwn(s, e, r); }
    PumpStep(s, e, s.retirements[r].pump);
    assert Evolves(s, e, r, Step(s, e).retirements[r]);
  }

  lemma AdoptsOwn(s: State, e: Event, r: nat)
    requires Numbered(s) && r < |s.retirements| && Adopts(s, e, r)
    ensures e.p == s.retirements[r].pump && s.pumps[e.p].published && !LooksNoMore(s.pumps[e.p].stage)
  {
  }

  lemma {:induction false} NeverOverlaps(s: State, events: seq<Event>, r: nat, launch: Launch)
    requires Ok(s) && Numbered(s) && Legal(s, events) && r < |s.retirements|
    requires !CanOverlap(s.retirements[r], s.pumps[s.retirements[r].pump])
    ensures r < |Run(s, events).retirements|
    ensures Enabled(Run(s, events), CreatePump(TopicOf(s, r), launch)) ==> !Outstanding(Run(s, events).retirements[r])
    decreases |events|
  {
    hide Ok, Step, Numbered, Enabled, CanOverlap, Outstanding;
    if events == [] {
      if Enabled(s, CreatePump(TopicOf(s, r), launch)) {
        OutstandingOverlaps(s, r, launch);
        if Overlapping(s.retirements[r]) { OverlapsCan(s, r); }
      }
    } else {
      CannotOverlapStep(s, events[0], r);
      NeverOverlaps(Step(s, events[0]), events[1..], r, launch);
    }
  }

  lemma OverlapsCan(s: State, r: nat)
    requires Numbered(s) && r < |s.retirements| && Overlapping(s.retirements[r])
    ensures CanOverlap(s.retirements[r], s.pumps[s.retirements[r].pump])
  {
  }

  /** The worker of a tombstone that waits for it can go on to adopt it. */
  lemma {:induction false} CanAdopt(s: State, r: nat) returns (events: seq<Event>)
    requires Ok(s) && Numbered(s) && LockFree(s) && r < |s.retirements|
    requires var x, pump := s.retirements[r], s.pumps[s.retirements[r].pump];
             Awaits(x, pump, r) && x.attached && !LooksNoMore(pump.stage)
    ensures Legal(s, events)
    ensures var u, p := Run(s, events), s.retirements[r].pump;
            && Ok(u) && Numbered(u) && SameTopics(s, u) && |u.pumps| == |s.pumps|
            && u.retirements[r].worker == Begun && u.retirements[r].thread == s.retirements[r].thread
            && u.retirements[r].pump == p && u.pumps[p].topic == s.pumps[p].topic
            && (forall q :: 0 <= q < |s.retirements| && q != r ==> u.retirements[q] == s.retirements[q])
            && (forall q :: 0 <= q < |s.pumps| && q != p ==> u.pumps[q] == s.pumps[q])
    decreases StageRank(s.pumps[s.retirements[r].pump].stage)
  {
    hide Ok, Numbered, Enabled, Awaits, Step;
    RetirementNumber(s, r);
    var e := NextLook(s.retirements[r], s.pumps[s.retirements[r].pump].stage);
    WorkerLooks(s, r);
    var n := Step(s, e);
    StepKeeps(s, e);
    OkIsNumbered(n);
    PumpStep(s, e, s.retirements[r].pump);
    RetirementNumber(n, r);
    var rest := [];
    if n.retirements[r].worker != Begun {
      rest := CanAdopt(n, r);
    }
    LegalFirst(s, e, rest);
    events := [e] + rest;
  }

  /** Adopting one tombstone strands no topic. */
  lemma AdoptedNotStranded(s: State, u: State, r: nat)
    requires Ok(s) && Ok(u) && Numbered(s) && Numbered(u) && SameTopics(s, u) && |u.pumps| == |s.pumps|
    requires r < |s.retirements| && u.retirements[r].worker == Begun
    requires forall q :: 0 <= q < |s.retirements| && q != r ==> u.retirements[q] == s.retirements[q]
    requires forall q :: 0 <= q < |s.pumps| && q != s.retirements[r].pump ==> u.pumps[q] == s.pumps[q]
    requires u.retirements[r].pump == s.retirements[r].pump
    requires TopicOf(u, r) == TopicOf(s, r) && !Stranded(s, TopicOf(s, r))
    ensures !Stranded(u, TopicOf(s, r))
  {
    hide Ok;
  }

  /** In this state a new subscription of the tombstone's topic can start, and a close call
      of its consumer has not returned. */
  predicate Overlaps(s: State, r: nat, t: Topic, launch: Launch) {
    Enabled(s, CreatePump(t, launch)) && r < |s.retirements| && Outstanding(s.retirements[r])
  }

  lemma ReachesOverlap(s: State, r: nat) returns (events: seq<Event>)
    requires Ok(s) && LockFree(s) && Numbered(s) && r < |s.retirements| && !Stranded(s, TopicOf(s, r))
    requires CanOverlap(s.retirements[r], s.pumps[s.retirements[r].pump])
    ensures Legal(s, events) && Overlaps(Run(s, events), r, TopicOf(s, r), Launched)
  {
    hide Ok, Numbered, Enabled, Stranded, Legal, Run, Unfenced, LooksNoMore;
    OnlyAttachedRun(s, r);
    TombStage(s, r);
    var first := [];
    NoEvents(s);
    if !Overlapping(s.retirements[r]) {
      first := CanAdopt(s, r);
      OkIsNumbered(Run(s, first));
      AdoptedNotStranded(s, Run(s, first), r);
    }
    var second := CanSubscribeAgain(Run(s, first), TopicOf(s, r));
    LegalAppend(s, first, second);
    events := first + second;
  }

  lemma NoEvents(s: State)
    ensures Legal(s, []) && Run(s, []) == s
  {
  }

  /** Exactly which tombstones can still come to it.  Some continuation starts a new
      subscription of the topic while a close call of the tombstone's consumer is out, if
      and only if the topic is not stranded, the tombstone's thread runs or ran the close,
      and the worker's own call overlaps with it or the worker has yet to look and would
      find the close unowned. */
  lemma OverlapIff(s: State, r: nat)
    requires Ok(s) && LockFree(s) && r < |s.retirements|
    ensures Numbered(s)
    ensures (exists events, launch :: Legal(s, events) && Overlaps(Run(s, events), r, TopicOf(s, r), launch))
       <==> CanOverlap(s.retirements[r], s.pumps[s.retirements[r].pump]) && !Stranded(s, TopicOf(s, r))
  {
    OkIsNumbered(s);
    hide Ok, Numbered, Enabled, Stranded, CanOverlap, Outstanding, Legal, Run;
    RetirementNumber(s, r);
    if CanOverlap(s.retirements[r], s.pumps[s.retirements[r].pump]) && !Stranded(s, TopicOf(s, r)) {
      var events := ReachesOverlap(s, r);
    } else {
      forall events, launch | Legal(s, events) ensures !Overlaps(Run(s, events), r, TopicOf(s, r), launch) {
        if Stranded(s, TopicOf(s, r)) {
          StrandedForever(s, events, TopicOf(s, r), launch);
        } else {
          NeverOverlaps(s, events, r, launch);
        }
      }
    }
  }

  // ----- A run that comes to it -----

  /** A disconnect starts a thread for the close, and the pump's worker, which found no
      owner, closes as well.  The thread's call returns first. */
  function DoubleEvents(t: Topic): seq<Event> {
    [Connect, CreatePump(t, Launched), SubscribeReturns(0), Publish(0, false, false),
     BeginDisconnect, FencePump(0, false, true, true), EndDisconnect,
     WorkerLeaves(0), ReadRetirement(0), AdoptRetirement(0),
     CloseReturns(0, ByThread), Completes(0), Connect]
  }

  /** The states of that run, one after each event. */
  function Doubling(t: Topic, n: nat): State {
    var pump := Pump(t, 1, true, false, false, None, Subscribing);
    var ready := pump.(published := true, stage := Ready);
    var fenced := ready.(accepting := false, retirement := Some(0));
    var tomb := Tombstone(0, true, true, true);
    var adopted := tomb.(free := false, worker := Begun);
    var closed := adopted.(thread := Ended);
    match n
    case 0 => Empty()
    case 1 => State([], [], map[], map[], true, 1, None, {})
    case 2 => State([pump], [], map[t := 0], map[], true, 1, None, {})
    case 3 => State([pump.(stage := Candidate)], [], map[t := 0], map[], true, 1, None, {0})
    case 4 => State([ready], [], map[t := 0], map[], true, 1, None, {0})
    case 5 => State([ready], [], map[t := 0], map[], true, 1, Some({0}), {0})
    case 6 => State([fenced], [tomb], map[t := 0], map[t := 0], true, 1, Some({}), {0})
    case 7 => State([fenced], [tomb], map[], map[t := 0], false, 2, None, {0})
    case 8 => State([fenced.(stage := Final)], [tomb], map[], map[t := 0], false, 2, None, {0})
    case 9 => State([fenced.(stage := Saw(Some(0)))], [tomb], map[], map[t := 0], false, 2, None, {0})
    case 10 => State([fenced.(stage := Closing(0))], [adopted], map[], map[t := 0], false, 2, None, {0})
    case 11 => State([fenced.(stage := Closing(0))], [closed], map[], map[t := 0], false, 2, None, {})
    case 12 => State([fenced.(stage := Closing(0))], [closed.(completed := true)], map[], map[t := 0], false, 2, None,
                     {})
    case _ => State([fenced.(stage := Closing(0))], [closed.(completed := true)], map[], map[t := 0], true, 3, None, {})
  }

  lemma DoubleConnects(t: Topic)
    ensures Goes(Doubling(t, 0), Connect, Doubling(t, 1))
  {
  }

  lemma DoubleCreates(t: Topic)
    ensures Goes(Doubling(t, 1), CreatePump(t, Launched), Doubling(t, 2))
  {
  }

  lemma DoubleSubscribes(t: Topic)
    ensures Goes(Doubling(t, 2), SubscribeReturns(0), Doubling(t, 3))
  {
  }

  lemma DoublePublishes(t: Topic)
    ensures Goes(Doubling(t, 3), Publish(0, false, false), Doubling(t, 4))
  {
  }

  lemma DoubleBegins(t: Topic)
    ensures Goes(Doubling(t, 4), BeginDisconnect, Doubling(t, 5))
  {
    OneLive(t);
  }

  lemma DoubleFences(t: Topic)
    ensures Goes(Doubling(t, 5), FencePump(0, false, true, true), Doubling(t, 6))
  {
    var todo: set<nat> := {0};
    assert todo - {0} == {};
    var s, u := Doubling(t, 5), Doubling(t, 6);
    assert Fence(s, 0, false, true, true).pumps == u.pumps;
    assert Fence(s, 0, false, true, true).retirements == u.retirements;
  }

  lemma DoubleDisconnects(t: Topic)
    ensures Goes(Doubling(t, 6), EndDisconnect, Doubling(t, 7))
  {
  }

  lemma DoubleLeaves(t: Topic)
    ensures Goes(Doubling(t, 7), WorkerLeaves(0), Doubling(t, 8))
  {
  }

  lemma DoubleReads(t: Topic)
    ensures Goes(Doubling(t, 8), ReadRetirement(0), Doubling(t, 9))
  {
  }

  lemma DoubleAdopts(t: Topic)
    ensures Goes(Doubling(t, 9), AdoptRetirement(0), Doubling(t, 10))
  {
  }

  lemma DoubleReturns(t: Topic)
    ensures Goes(Doubling(t, 10), CloseReturns(0, ByThread), Doubling(t, 11))
  {
    var all: set<nat> := {0};
    assert all - {0} == {};
  }

  lemma DoubleCompletes(t: Topic)
    ensures Goes(Doubling(t, 11), Completes(0), Doubling(t, 12))
  {
  }

  lemma DoubleReconnects(t: Topic)
    ensures Goes(Doubling(t, 12), Connect, Doubling(t, 13))
  {
  }

  lemma DoubleGoes(t: Topic, n: nat)
    requires n < |DoubleEvents(t)|
    ensures Goes(Doubling(t, n), DoubleEvents(t)[n], Doubling(t, n + 1))
  {
    hide Goes, Doubling;
    DoubleConnects(t);
    DoubleCreates(t);
    DoubleSubscribes(t);
    DoublePublishes(t);
    DoubleBegins(t);
    DoubleFences(t);
    DoubleDisconnects(t);
    DoubleLeaves(t);
    DoubleReads(t);
    DoubleAdopts(t);
    DoubleReturns(t);
    DoubleCompletes(t);
    DoubleReconnects(t);
  }

  lemma {:induction false} DoubleRun(t: Topic, n: nat)
    requires n <= |DoubleEvents(t)|
    ensures Legal(Doubling(t, n), DoubleEvents(t)[n..]) && Run(Doubling(t, n), DoubleEvents(t)[n..]) == Doubling(t, 13)
    decreases |DoubleEvents(t)| - n
  {
    hide Goes, Doubling;
    var events := DoubleEvents(t);
    if n < |events| {
      DoubleGoes(t, n);
      DoubleRun(t, n + 1);
      GoesOn(Doubling(t, n), events[n], Doubling(t, n + 1), events[n + 1..], Doubling(t, 13));
      assert [events[n]] + events[n + 1..] == events[n..];
    }
  }

  /** In that run a new subscription of the topic can start while the worker's call has
      not returned; its own consumer counts as closed. */
  lemma TwoClosesOverlap(t: Topic)
    ensures Legal(Empty(), DoubleEvents(t))
    ensures var s := Run(Empty(), DoubleEvents(t));
            && Overlaps(s, 0, t, Launched) && s.retirements[0].worker == Begun && AtStage(s, 0, Closing(0))
            && !Occupied(s, 0)
  {
    DoubleRun(t, 0);
    assert DoubleEvents(t)[0..] == DoubleEvents(t);
    hide Run, Legal;
  }
}
