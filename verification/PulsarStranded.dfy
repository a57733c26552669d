/** Which topics of the Pulsar backend can never be subscribed again: exactly those behind
    a tombstone that nobody will finish. */
module PulsarStranded {
  import opened Options
  import opened PulsarPumps
  import opened PulsarRuns
  import opened PulsarExclusive

  /** The pump's worker will not look at its retirement any more, or never did. */
  predicate LooksNoMore(stage: Stage) {
    stage in {Never, Stopped, Saw(None)}
  }

  /** Nobody runs the close of this tombstone and nobody will: without a consumer only the
      worker can finish it, and with one only a worker that published that very consumer
      and would find the close unowned. */
  predicate Hopeless(r: Retirement, pump: Pump) {
    && !r.completed && !r.Running()
    && (LooksNoMore(pump.stage) || (r.attached && !(pump.published && r.free)))
  }

  predicate Stranded(s: State, t: Topic)
    requires Numbered(s)
  {
    t in s.tombs && Hopeless(s.retirements[s.tombs[t]], s.pumps[s.retirements[s.tombs[t]].pump])
  }

  // ----- Such a topic stays so -----

  lemma StrandedCannotCreate(s: State, t: Topic, launch: Launch)
    requires Numbered(s) && Stranded(s, t)
    ensures !Enabled(s, CreatePump(t, launch))
  {
  }

  lemma StrandedHasTomb(s: State, t: Topic)
    requires Numbered(s) && Stranded(s, t)
    ensures t in s.tombs
  {
  }

  lemma TombTopic(s: State, t: Topic)
    requires Numbered(s) && t in s.tombs
    ensures s.tombs[t] < |s.retirements| && s.retirements[s.tombs[t]].pump < |s.pumps|
    ensures var p := s.retirements[s.tombs[t]].pump;
            s.pumps[p].topic == t && s.pumps[p].retirement == Some(s.tombs[t]) && StageNumbers(s.pumps[p])
  {
  }

  /** Of a stranded topic no pump holds a candidate, and the live pump, if any, has its
      tombstone already. */
  lemma NoSecondTomb(s: State, t: Topic, p: nat)
    requires Ok(s) && Stranded(s, t) && p < |s.pumps| && s.pumps[p].topic == t
    ensures s.pumps[p].stage != Candidate
    ensures Get(s.live, t) == Some(p) ==> s.pumps[p].retirement.Some?
  {
    At(s, p);
    TombTopic(s, t);
    At(s, s.retirements[s.tombs[t]].pump);
    hide PumpsOk, RetirementsOk, LiveNumbers, OpenNumbers, StageNumbers, LiveOk, FencingOk;
  }

  /** A step that leaves the topic's tombstone and what matters of its pump. */
  lemma StrandedSame(s: State, u: State, t: Topic)
    requires Numbered(s) && Numbered(u) && Stranded(s, t) && Get(u.tombs, t) == Get(s.tombs, t)
    requires s.tombs[t] < |u.retirements| && u.retirements[s.tombs[t]] == s.retirements[s.tombs[t]]
    requires var p := s.retirements[s.tombs[t]].pump;
             && p < |u.pumps| && p < |s.pumps|
             && u.pumps[p].published == s.pumps[p].published
             && (LooksNoMore(s.pumps[p].stage) ==> LooksNoMore(u.pumps[p].stage))
    ensures Stranded(u, t)
  {
    hide Numbered, LooksNoMore;
  }

  lemma StrandedPump(s: State, p: nat, pump: Pump, t: Topic)
    requires Ok(s) && Numbered(s) && Stranded(s, t) && p < |s.pumps| && Numbered(SetPump(s, p, pump))
    requires s.pumps[p].stage != Candidate ==> pump.published == s.pumps[p].published
    requires LooksNoMore(s.pumps[p].stage) ==> LooksNoMore(pump.stage)
    ensures Stranded(SetPump(s, p, pump), t)
  {
    hide Ok, Numbered, Stranded, LooksNoMore, Hopeless;
    StrandedHasTomb(s, t);
    TombTopic(s, t);
    assert s.pumps[p].topic == t ==> s.pumps[p].stage != Candidate by {
      if s.pumps[p].topic == t { NoSecondTomb(s, t, p); }
    }
    StrandedSame(s, SetPump(s, p, pump), t);
  }

  predicate OnlyOwn(s: State, u: State, p: nat)
    requires p < |s.pumps|
  {
    && |u.pumps| == |s.pumps| && |u.retirements| >= |s.retirements|
    && (forall q :: 0 <= q < |s.pumps| && q != p ==> u.pumps[q] == s.pumps[q])
    && (forall r :: 0 <= r < |s.retirements| && s.retirements[r].pump != p ==> u.retirements[r] == s.retirements[r])
    && (forall k :: k in s.tombs && k != s.pumps[p].topic ==> k in u.tombs && u.tombs[k] == s.tombs[k])
  }

  lemma StageOnlyOwn(s: State, u: State, p: nat, stage: Stage)
    requires p < |s.pumps| && OnlyOwn(s, u, p)
    ensures OnlyOwn(s, SetStage(u, p, stage), p)
  {
  }

  lemma EntombOnlyOwn(s: State, p: nat, free: bool, runs: bool)
    requires p < |s.pumps|
    ensures OnlyOwn(s, Entomb(s, p, true, free, runs), p)
  {
  }

  /** Closing a late candidate touches its own pump, retirement and topic. */
  lemma StaleEffect(s: State, p: nat, free: bool, runs: bool, next: Stage)
    requires p < |s.pumps|
    requires s.pumps[p].retirement.Some? ==>
               s.pumps[p].retirement.value < |s.retirements| && s.retirements[s.pumps[p].retirement.value].pump == p
    ensures OnlyOwn(s, CloseStale(s, p, free, runs, next), p)
  {
    match s.pumps[p].retirement
    case None =>
      hide OnlyOwn, Entomb, SetStage;
      EntombOnlyOwn(s, p, free, runs);
      StageOnlyOwn(s, Entomb(s, p, true, free, runs), p, next);
    case Some(r) =>
      var x := s.retirements[r].(attached := true, free := false, worker := Begun);
      hide SetStage;
      assert OnlyOwn(s, SetRetirement(s, r, x), p);
      StageOnlyOwn(s, SetRetirement(s, r, x), p, Closing(r));
  }

  lemma StrandedStale(s: State, p: nat, free: bool, runs: bool, next: Stage, t: Topic)
    requires Ok(s) && Numbered(s) && Stranded(s, t) && AtStage(s, p, Candidate)
    requires s.pumps[p].retirement.Some? ==>
               s.pumps[p].retirement.value < |s.retirements| && s.retirements[s.pumps[p].retirement.value].pump == p
    requires Numbered(CloseStale(s, p, free, runs, next))
    ensures Stranded(CloseStale(s, p, free, runs, next), t)
  {
    hide Ok, Numbered, Stranded, LooksNoMore, Hopeless, CloseStale;
    StrandedHasTomb(s, t);
    assert s.pumps[p].topic != t by { if s.pumps[p].topic == t { NoSecondTomb(s, t, p); } }
    TombTopic(s, t);
    StaleEffect(s, p, free, runs, next);
    StrandedSame(s, CloseStale(s, p, free, runs, next), t);
  }

  /** Fencing a pump changes no other retirement, no pump's stage or consumer, and no
      topic's tombstone but its own, and that only when it had none. */
  lemma FenceEffect(s: State, p: nat, reentrant: bool, free: bool, runs: bool)
    requires p < |s.pumps| && s.fencing.Some?
    ensures OnlyEntombs(s, Fence(s, p, reentrant, free, runs), p)
  {
  }

  lemma TerminalEffect(s: State, t: Topic, free: bool, runs: bool)
    requires t in s.live && s.live[t] < |s.pumps|
    ensures OnlyEntombs(s, Terminal(s, t, free, runs), s.live[t])
  {
  }

  predicate OnlyEntombs(s: State, u: State, p: nat)
    requires p < |s.pumps|
  {
    && |u.pumps| == |s.pumps| && |u.retirements| >= |s.retirements|
    && (forall r :: 0 <= r < |s.retirements| ==> u.retirements[r] == s.retirements[r])
    && (forall q :: 0 <= q < |s.pumps| ==>
         u.pumps[q].published == s.pumps[q].published && u.pumps[q].stage == s.pumps[q].stage)
    && (forall k :: k in s.tombs && (k != s.pumps[p].topic || s.pumps[p].retirement.Some?) ==>
         k in u.tombs && u.tombs[k] == s.tombs[k])
  }

  lemma FencedHasTomb(s: State, p: nat, t: Topic)
    requires Ok(s) && Numbered(s) && Stranded(s, t) && s.fencing.Some? && p in s.fencing.value
    ensures p < |s.pumps|
    ensures s.pumps[p].topic == t ==> s.pumps[p].retirement.Some?
  {
    FencedIsLive(s, p);
    hide Ok, Numbered, Stranded;
    if s.pumps[p].topic == t { NoSecondTomb(s, t, p); }
  }

  lemma StrandedFence(s: State, p: nat, reentrant: bool, free: bool, runs: bool, t: Topic)
    requires Ok(s) && Numbered(s) && Stranded(s, t) && s.fencing.Some? && p in s.fencing.value && p < |s.pumps|
    requires Numbered(Fence(s, p, reentrant, free, runs))
    ensures Stranded(Fence(s, p, reentrant, free, runs), t)
  {
    hide Ok, Numbered, Stranded, LooksNoMore, Fence, Hopeless;
    StrandedHasTomb(s, t);
    TombTopic(s, t);
    FencedHasTomb(s, p, t);
    FenceEffect(s, p, reentrant, free, runs);
    var r := s.tombs[t];
    var u := Fence(s, p, reentrant, free, runs);
    assert t in u.tombs && u.tombs[t] == r;
    StrandedSame(s, u, t);
  }

  lemma FencedIsLive(s: State, p: nat)
    requires Ok(s) && s.fencing.Some? && p in s.fencing.value
    ensures p < |s.pumps| && Get(s.live, s.pumps[p].topic) == Some(p)
  {
    hide PumpsOk, RetirementsOk, Covered, OwnTomb, LiveOk;
    assert p in s.live.Values;
  }

  lemma LiveNumber(s: State, k: Topic)
    requires Numbered(s) && k in s.live
    ensures s.live[k] < |s.pumps| && s.pumps[s.live[k]].topic == k
  {
  }

  lemma StrandedTerminal(s: State, k: Topic, free: bool, runs: bool, t: Topic)
    requires Ok(s) && Numbered(s) && Stranded(s, t) && Enabled(s, CallerTerminal(k, free, runs))
    requires Numbered(Terminal(s, k, free, runs))
    ensures Stranded(Terminal(s, k, free, runs), t)
  {
    hide Ok, Numbered, Live, Stranded, LooksNoMore, Terminal, Hopeless;
    StrandedHasTomb(s, t);
    assert k == t ==> s.pumps[s.live[k]].retirement.Some? by { if k == t { NoSecondTomb(s, t, s.live[k]); } }
    TombTopic(s, t);
    TerminalEffect(s, k, free, runs);
    LiveNumber(s, k);
    StrandedSame(s, Terminal(s, k, free, runs), t);
  }

  lemma CreateNotStranded(s: State, k: Topic, launch: Launch)
    requires Numbered(s) && Enabled(s, CreatePump(k, launch))
    ensures !Stranded(s, k)
  {
  }

  lemma StrandedCreate(s: State, k: Topic, launch: Launch, t: Topic)
    requires Ok(s) && Numbered(s) && Stranded(s, t) && Enabled(s, CreatePump(k, launch))
    requires Numbered(Create(s, k, launch))
    ensures Stranded(Create(s, k, launch), t)
  {
    hide Ok, Numbered, Create, Stranded, LooksNoMore, Hopeless;
    StrandedHasTomb(s, t);
    CreateNotStranded(s, k, launch);
    CreateAdds(s, k, launch);
    TombTopic(s, t);
    StrandedSame(s, Create(s, k, launch), t);
  }

  /** What the invariant says of a tombstone and its pump. */
  lemma TombStage(s: State, r: nat)
    requires Ok(s) && r < |s.retirements|
    ensures s.retirements[r].pump < |s.pumps|
    ensures var x, pump := s.retirements[r], s.pumps[s.retirements[r].pump];
            && pump.retirement == Some(r) && (x.Running() ==> x.attached) && (pump.stage.Closing? ==> x.Running())
            && (pump.stage.Saw? && pump.stage.seen.Some? ==> pump.stage == Saw(Some(r)))
            && (!x.attached ==>
                  && !pump.published && !pump.accepting
                  && pump.stage !in {Ready, InReceive, Returned, Faulted})
            && (x.attached ==> pump.stage !in {Subscribing, BootstrapFailed, Candidate, Never})
            && (pump.published ==> !pump.accepting)
  {
    At(s, s.retirements[r].pump);
    hide PumpsOk, RetirementsOk, Covered, OwnTomb, FencingOk, LiveOk;
  }

  lemma SawOwn(s: State, p: nat)
    requires Ok(s) && p < |s.pumps| && s.pumps[p].stage.Saw? && s.pumps[p].stage.seen.Some?
    ensures s.pumps[p].retirement == s.pumps[p].stage.seen && s.pumps[p].stage.seen.value < |s.retirements|
    ensures s.retirements[s.pumps[p].stage.seen.value].pump == p
  {
    hide PumpsOk, RetirementsOk, Covered, OwnTomb, FencingOk, LiveOk;
  }

  /** A worker that finishes or adopts a tombstone works on one that is not hopeless. */
  lemma FinishesAnother(s: State, p: nat, t: Topic)
    requires Ok(s) && Numbered(s) && Stranded(s, t)
    requires p < |s.pumps| && s.pumps[p].stage.Saw? && s.pumps[p].stage.seen.Some?
             && s.pumps[p].stage.seen.value < |s.retirements|
    requires var x := s.retirements[s.pumps[p].stage.seen.value]; x.attached ==> x.free && s.pumps[p].published
    ensures s.pumps[p].stage.seen.value != s.tombs[t] && p != s.retirements[s.tombs[t]].pump
  {
    hide Ok, Numbered;
    SawOwn(s, p);
    StrandedHasTomb(s, t);
    TombTopic(s, t);
    TombStage(s, s.tombs[t]);
  }

  lemma StrandedFinish(s: State, e: Event, t: Topic)
    requires Ok(s) && Stranded(s, t) && Enabled(s, e) && (e.FinishPlaceholder? || e.AdoptRetirement?)
    requires Numbered(s) && Numbered(Step(s, e))
    ensures Stranded(Step(s, e), t)
  {
    hide Ok, Numbered, Stranded, Hopeless, LooksNoMore;
    StrandedHasTomb(s, t);
    TombTopic(s, t);
    FinishesAnother(s, e.p, t);
    StrandedSame(s, Step(s, e), t);
  }

  /** The steps of a worker that change only its pump. */
  lemma StrandedWorker(s: State, e: Event, t: Topic)
    requires Ok(s) && Stranded(s, t) && Enabled(s, e)
    requires e.SubscribeFails? || e.ReportBootstrap? || e.ReportFault? || e.ReceiveBegins? || e.ReceiveReturns?
          || e.Deliver? || e.WorkerLeaves? || e.ReadRetirement? || e.WorkerStops?
    requires Numbered(s) && Numbered(Step(s, e))
    ensures Stranded(Step(s, e), t)
  {
    hide Ok, Numbered, Stranded, Live;
    StrandedPump(s, e.p, Step(s, e).pumps[e.p], t);
  }

  /** The two that need a look at the tombstone. */
  lemma StrandedWorkerOther(s: State, e: Event, t: Topic)
    requires Ok(s) && Stranded(s, t) && Enabled(s, e) && (e.SubscribeReturns? || e.WorkerClosed?)
    requires Numbered(s) && Numbered(Step(s, e))
    ensures Stranded(Step(s, e), t)
  {
    hide Ok, Numbered;
    StrandedHasTomb(s, t);
    TombTopic(s, t);
    TombStage(s, s.tombs[t]);
    StrandedSame(s, Step(s, e), t);
  }

  lemma StrandedPlain(s: State, e: Event, t: Topic)
    requires Ok(s) && Stranded(s, t) && Enabled(s, e)
    requires e.Connect? || e.BeginDisconnect? || e.EndDisconnect? || e.CloseReturns? || e.Completes? || e.DropTomb?
    requires Numbered(s) && Numbered(Step(s, e))
    ensures Stranded(Step(s, e), t)
  {
    hide Ok, Numbered;
    StrandedHasTomb(s, t);
    TombTopic(s, t);
    TombStage(s, s.tombs[t]);
    if e.Completes? { ClosedHasRun(s, e.r); }
    StrandedSame(s, Step(s, e), t);
  }

  lemma ClosedHasRun(s: State, r: nat)
    requires Ok(s) && r < |s.retirements|
    ensures s.retirements[r].Closed() ==> s.retirements[r].attached
  {
    hide PumpsOk, Covered, OwnTomb, FencingOk, LiveOk;
  }

  /** The steps that change maps or tombstones. */
  lemma StrandedLocked(s: State, e: Event, t: Topic)
    requires Ok(s) && Numbered(s) && Stranded(s, t) && Enabled(s, e) && Numbered(Step(s, e))
    requires e.Publish? || e.PublicationFault? || e.FencePump? || e.CallerTerminal? || e.CreatePump?
    ensures Stranded(Step(s, e), t)
  {
    hide Ok, Numbered, Stranded, Fence, CloseStale, Terminal, Create, Live;
    match e
    case Publish(p, free, runs) =>
      StaleRange(s, p);
      if Live(s, p) { StrandedPump(s, p, s.pumps[p].(published := true, stage := Ready), t); }
      else { StrandedStale(s, p, free, runs, Final, t); }
    case PublicationFault(p, free, runs) =>
      StaleRange(s, p);
      StrandedStale(s, p, free, runs, Faulted, t);
    case FencePump(p, reentrant, free, runs) => StrandedFence(s, p, reentrant, free, runs, t);
    case CallerTerminal(k, free, runs) => StrandedTerminal(s, k, free, runs, t);
    case CreatePump(k, launch) => StrandedCreate(s, k, launch, t);
  }

  lemma StaleRange(s: State, p: nat)
    requires Ok(s) && p < |s.pumps|
    ensures s.pumps[p].retirement.Some? ==>
              s.pumps[p].retirement.value < |s.retirements| && s.retirements[s.pumps[p].retirement.value].pump == p
  {
    hide PumpsOk, RetirementsOk, Covered, OwnTomb, FencingOk, LiveOk;
  }

  lemma StrandedKeeps(s: State, e: Event, t: Topic)
    requires Ok(s) && Numbered(s) && Stranded(s, t) && Enabled(s, e)
    ensures Numbered(Step(s, e)) && Stranded(Step(s, e), t)
  {
    hide Ok, Numbered, Stranded, Step, Enabled;
    StepKeeps(s, e);
    OkIsNumbered(Step(s, e));
    match e
    case Publish(_, _, _) => StrandedLocked(s, e, t);
    case PublicationFault(_, _, _) => StrandedLocked(s, e, t);
    case FencePump(_, _, _, _) => StrandedLocked(s, e, t);
    case CallerTerminal(_, _, _) => StrandedLocked(s, e, t);
    case CreatePump(_, _) => StrandedLocked(s, e, t);
    case Connect => StrandedPlain(s, e, t);
    case BeginDisconnect => StrandedPlain(s, e, t);
    case EndDisconnect => StrandedPlain(s, e, t);
    case CloseReturns(_, _) => StrandedPlain(s, e, t);
    case Completes(_) => StrandedPlain(s, e, t);
    case DropTomb(_) => StrandedPlain(s, e, t);
    case FinishPlaceholder(_) => StrandedFinish(s, e, t);
    case AdoptRetirement(_) => StrandedFinish(s, e, t);
    case SubscribeReturns(_) => StrandedWorkerOther(s, e, t);
    case WorkerClosed(_) => StrandedWorkerOther(s, e, t);
    case _ => StrandedWorker(s, e, t);
  }

  /** From such a state on, the topic is never subscribed again. */
  lemma {:induction false} StrandedForever(s: State, events: seq<Event>, t: Topic, launch: Launch)
    requires Ok(s) && Stranded(s, t) && Legal(s, events)
    ensures !Enabled(Run(s, events), CreatePump(t, launch))
    decreases |events|
  {
    OkIsNumbered(s);
    hide Ok, Step, Numbered, Enabled, Stranded;
    if events == [] {
      StrandedCannotCreate(s, t, launch);
    } else {
      StrandedKeeps(s, events[0], t);
      StepKeeps(s, events[0]);
      StrandedForever(Step(s, events[0]), events[1..], t, launch);
    }
  }

  // ----- Any other topic can be subscribed again -----

  function StageRank(stage: Stage): nat {
    match stage
    case Subscribing => 9
    case Candidate => 8
    case BootstrapFailed => 8
    case InReceive => 7
    case Returned => 6
    case Ready => 5
    case Faulted => 5
    case Final => 4
    case Saw(_) => 3
    case _ => 0
  }

  /** How far a tombstone is from being completed. */
  function TombRank(r: Retirement, pump: Pump): nat {
    if r.completed then 0 else if r.Closed() then 1 else if r.Running() then 2 else 3 + StageRank(pump.stage)
  }

  /** The call that has to return first: the thread's, if there is one. */
  function Caller(tomb: Retirement): Closer {
    if tomb.thread == Begun then ByThread else ByWorker
  }

  /** The next step toward completing a tombstone whose close has begun. */
  function TowardCompletion(r: nat, tomb: Retirement): Event {
    if tomb.Closed() then Completes(r) else CloseReturns(r, Caller(tomb))
  }

  predicate SameTopics(s: State, u: State) {
    && u.live == s.live && u.tombs == s.tombs && u.connected == s.connected && u.fencing == s.fencing
    && |u.retirements| == |s.retirements|
  }

  /** The thread and the worker both close the consumer, and one call is outstanding. */
  predicate Overlapping(x: Retirement) {
    x.thread != NotBegun && x.worker != NotBegun && !(x.thread == Ended && x.worker == Ended)
  }

  predicate Spares(before: seq<Retirement>, after: seq<Retirement>) {
    |before| <= |after| && forall r :: 0 <= r < |before| && Overlapping(before[r]) ==> Overlapping(after[r])
  }

  /** The event takes the tombstone one step closer to completion. */
  predicate Advances(s: State, r: nat, e: Event)
    requires Numbered(s) && Enabled(s, e) && r < |s.retirements| && s.retirements[r].pump < |s.pumps|
  {
    var u := Step(s, e);
    && SameTopics(s, u) && |u.pumps| == |s.pumps| && u.retirements[r].pump == s.retirements[r].pump
    && Spares(s.retirements, u.retirements)
    && !Hopeless(u.retirements[r], u.pumps[u.retirements[r].pump])
    && TombRank(u.retirements[r], u.pumps[u.retirements[r].pump])
         < TombRank(s.retirements[r], s.pumps[s.retirements[r].pump])
  }

  lemma ReturnAdvances(s: State, r: nat)
    requires Numbered(s) && r < |s.retirements| && s.retirements[r].pump < |s.pumps|
    requires !s.retirements[r].completed && s.retirements[r].Running() && !s.retirements[r].Closed()
    ensures var e := CloseReturns(r, Caller(s.retirements[r])); Enabled(s, e) && Advances(s, r, e)
  {
    hide Numbered;
    var x := s.retirements[r];
    assert x.CloseOf(Caller(x)) == Begun;
    assert Overlapping(x) ==> Overlapping(x.Closes(Caller(x), Ended));
    hide Overlapping, Caller;
  }

  lemma CompletesAdvances(s: State, r: nat)
    requires Numbered(s) && r < |s.retirements| && s.retirements[r].pump < |s.pumps|
    requires !s.retirements[r].completed && s.retirements[r].Closed()
    ensures Enabled(s, Completes(r)) && Advances(s, r, Completes(r))
  {
    hide Numbered;
    assert Overlapping(s.retirements[r]) ==> Overlapping(s.retirements[r].(completed := true));
    hide Overlapping;
  }

  lemma CloseAdvances(s: State, r: nat)
    requires Numbered(s) && r < |s.retirements| && s.retirements[r].pump < |s.pumps|
    requires !s.retirements[r].completed && s.retirements[r].Running()
    ensures var e := TowardCompletion(r, s.retirements[r]);
            Enabled(s, e) && Advances(s, r, e)
  {
    hide Numbered, Enabled, Advances;
    if s.retirements[r].Closed() {
      CompletesAdvances(s, r);
    } else {
      ReturnAdvances(s, r);
    }
  }

  /** The tombstone waits for its pump's worker: it is a placeholder, or the worker would
      find its close unowned. */
  predicate Awaits(x: Retirement, pump: Pump, r: nat) {
    && pump.retirement == Some(r) && !pump.accepting && x.worker == NotBegun
    && (if x.attached then x.free && pump.published else !x.completed && !x.Running() && !pump.published)
  }

  predicate AwaitsAt(s: State, r: nat, stage: Stage) {
    && Numbered(s) && LockFree(s) && r < |s.retirements| && s.retirements[r].pump < |s.pumps|
    && Awaits(s.retirements[r], s.pumps[s.retirements[r].pump], r)
    && s.pumps[s.retirements[r].pump].stage == stage
  }

  /** What the worker does next. */
  function NextLook(x: Retirement, stage: Stage): Event {
    match stage
    case Subscribing => SubscribeFails(x.pump)
    case BootstrapFailed => ReportBootstrap(x.pump)
    case Candidate => Publish(x.pump, false, true)
    case Faulted => ReportFault(x.pump)
    case InReceive => ReceiveReturns(x.pump)
    case Returned => Deliver(x.pump, false)
    case Ready => WorkerLeaves(x.pump)
    case Final => ReadRetirement(x.pump)
    case _ => if x.attached then AdoptRetirement(x.pump) else FinishPlaceholder(x.pump)
  }

  /** The worker comes closer to its look at the tombstone, or acts on it. */
  predicate Looks(s: State, r: nat, e: Event)
    requires Numbered(s) && Enabled(s, e) && r < |s.retirements|
  {
    var u, x := Step(s, e), s.retirements[r];
    && SameTopics(s, u) && |u.pumps| == |s.pumps| && u.retirements[r].pump == x.pump
    && (forall q :: 0 <= q < |s.retirements| && q != r ==> u.retirements[q] == s.retirements[q])
    && (forall p :: 0 <= p < |s.pumps| && p != x.pump ==> u.pumps[p] == s.pumps[p])
    && (|| (u.retirements[r].worker == Begun && u.retirements[r].thread == x.thread)
        || (!x.attached && u.retirements[r].completed)
        || (u.retirements[r] == x && Awaits(x, u.pumps[x.pump], r) && !LooksNoMore(u.pumps[x.pump].stage)
            && StageRank(u.pumps[x.pump].stage) < StageRank(s.pumps[x.pump].stage)))
  }

  lemma SubscribingLooks(s: State, r: nat)
    requires AwaitsAt(s, r, Subscribing) && !s.retirements[r].attached
    ensures Enabled(s, NextLook(s.retirements[r], Subscribing)) && Looks(s, r, NextLook(s.retirements[r], Subscribing))
  {
    hide Numbered;
  }

  lemma BootstrapLooks(s: State, r: nat)
    requires AwaitsAt(s, r, BootstrapFailed) && !s.retirements[r].attached
    ensures Enabled(s, NextLook(s.retirements[r], BootstrapFailed))
            && Looks(s, r, NextLook(s.retirements[r], BootstrapFailed))
  {
    hide Numbered;
  }

  lemma CandidateLooks(s: State, r: nat)
    requires AwaitsAt(s, r, Candidate)
    ensures Enabled(s, NextLook(s.retirements[r], Candidate)) && Looks(s, r, NextLook(s.retirements[r], Candidate))
  {
    hide Numbered;
  }

  lemma ReadyLooks(s: State, r: nat)
    requires AwaitsAt(s, r, Ready) && s.retirements[r].attached
    ensures Enabled(s, NextLook(s.retirements[r], Ready)) && Looks(s, r, NextLook(s.retirements[r], Ready))
  {
    hide Numbered;
  }

  lemma InReceiveLooks(s: State, r: nat)
    requires AwaitsAt(s, r, InReceive) && s.retirements[r].attached
    ensures Enabled(s, NextLook(s.retirements[r], InReceive)) && Looks(s, r, NextLook(s.retirements[r], InReceive))
  {
    hide Numbered;
  }

  lemma ReturnedLooks(s: State, r: nat)
    requires AwaitsAt(s, r, Returned) && s.retirements[r].attached
    ensures Enabled(s, NextLook(s.retirements[r], Returned)) && Looks(s, r, NextLook(s.retirements[r], Returned))
  {
    hide Numbered;
  }

  lemma FaultedLooks(s: State, r: nat)
    requires AwaitsAt(s, r, Faulted) && s.retirements[r].attached
    ensures Enabled(s, NextLook(s.retirements[r], Faulted)) && Looks(s, r, NextLook(s.retirements[r], Faulted))
  {
    hide Numbered;
  }

  lemma FinalLooks(s: State, r: nat)
    requires AwaitsAt(s, r, Final)
    ensures Enabled(s, NextLook(s.retirements[r], Final)) && Looks(s, r, NextLook(s.retirements[r], Final))
  {
    hide Numbered;
  }

  lemma SawPlaceholderLooks(s: State, r: nat)
    requires AwaitsAt(s, r, Saw(Some(r))) && !s.retirements[r].attached
    ensures Enabled(s, NextLook(s.retirements[r], Saw(Some(r))))
            && Looks(s, r, NextLook(s.retirements[r], Saw(Some(r))))
  {
    hide Numbered;
  }

  lemma SawDeferredLooks(s: State, r: nat)
    requires AwaitsAt(s, r, Saw(Some(r))) && s.retirements[r].attached
    ensures Enabled(s, NextLook(s.retirements[r], Saw(Some(r))))
            && Looks(s, r, NextLook(s.retirements[r], Saw(Some(r))))
  {
    hide Numbered;
  }

  /** The worker of a tombstone that waits for it can always go on to its look. */
  lemma WorkerLooks(s: State, r: nat)
    requires Ok(s) && Numbered(s) && LockFree(s) && r < |s.retirements|
    requires var x, pump := s.retirements[r], s.pumps[s.retirements[r].pump];
             Awaits(x, pump, r) && !LooksNoMore(pump.stage)
    ensures var e := NextLook(s.retirements[r], s.pumps[s.retirements[r].pump].stage);
            Enabled(s, e) && Looks(s, r, e)
  {
    TombStage(s, r);
    hide Ok, Numbered, Enabled, Looks, Awaits, NextLook, Retirement.Running;
    match s.pumps[s.retirements[r].pump].stage
    case Subscribing => SubscribingLooks(s, r);
    case BootstrapFailed => BootstrapLooks(s, r);
    case Candidate => CandidateLooks(s, r);
    case Ready => ReadyLooks(s, r);
    case InReceive => InReceiveLooks(s, r);
    case Returned => ReturnedLooks(s, r);
    case Faulted => FaultedLooks(s, r);
    case Final => FinalLooks(s, r);
    case Saw(_) => if s.retirements[r].attached { SawDeferredLooks(s, r); } else { SawPlaceholderLooks(s, r); }
  }

  lemma LooksAdvances(s: State, r: nat, e: Event)
    requires Numbered(s) && Enabled(s, e) && r < |s.retirements| && Looks(s, r, e)
    requires !s.retirements[r].completed && !s.retirements[r].Running() && s.retirements[r].pump < |s.pumps|
    ensures Advances(s, r, e)
  {
    hide Numbered, Enabled, Step;
  }

  /** One that is not hopeless, and that no thread closes, waits for its worker. */
  lemma NotHopelessAwaits(s: State, r: nat)
    requires Ok(s) && r < |s.retirements| && s.retirements[r].pump < |s.pumps|
    requires var x, pump := s.retirements[r], s.pumps[s.retirements[r].pump];
             !x.completed && !x.Running() && !Hopeless(x, pump)
    ensures var x, pump := s.retirements[r], s.pumps[s.retirements[r].pump];
            Awaits(x, pump, r) && !LooksNoMore(pump.stage)
  {
    TombStage(s, r);
    hide Ok;
  }

  lemma CompletionStep(s: State, r: nat) returns (e: Event)
    requires Ok(s) && LockFree(s) && r < |s.retirements| && s.retirements[r].pump < |s.pumps|
    requires !s.retirements[r].completed && !Hopeless(s.retirements[r], s.pumps[s.retirements[r].pump])
    ensures Numbered(s) && Enabled(s, e) && Advances(s, r, e)
  {
    OkIsNumbered(s);
    hide Ok, Numbered, Enabled, Advances, Looks, Hopeless, Awaits;
    var x := s.retirements[r];
    if x.Running() {
      e := TowardCompletion(r, x);
      CloseAdvances(s, r);
    } else {
      e := NextLook(x, s.pumps[x.pump].stage);
      NotHopelessAwaits(s, r);
      WorkerLooks(s, r);
      LooksAdvances(s, r, e);
    }
  }

  lemma {:induction false} LegalAppend(s: State, first: seq<Event>, second: seq<Event>)
    requires Legal(s, first) && Legal(Run(s, first), second)
    ensures Legal(s, first + second) && Run(s, first + second) == Run(Run(s, first), second)
    decreases |first|
  {
    hide Step, Numbered, Enabled;
    if first == [] {
      assert first + second == second;
    } else {
      LegalAppend(Step(s, first[0]), first[1..], second);
      assert (first + second)[1..] == first[1..] + second;
    }
  }

  lemma LegalFirst(s: State, e: Event, rest: seq<Event>)
    requires Numbered(s) && Enabled(s, e) && Legal(Step(s, e), rest)
    ensures Legal(s, [e] + rest) && Run(s, [e] + rest) == Run(Step(s, e), rest)
  {
    hide Step, Numbered, Enabled;
    assert ([e] + rest)[1..] == rest;
  }

  /** A tombstone that is not hopeless can be completed, with nothing else of the topics
      changed. */
  lemma {:induction false} CanComplete(s: State, r: nat) returns (events: seq<Event>)
    requires Ok(s) && LockFree(s) && r < |s.retirements| && s.retirements[r].pump < |s.pumps|
    requires !Hopeless(s.retirements[r], s.pumps[s.retirements[r].pump])
    ensures Legal(s, events)
    ensures var u := Run(s, events);
            Ok(u) && SameTopics(s, u) && u.retirements[r].completed && Spares(s.retirements, u.retirements)
    decreases TombRank(s.retirements[r], s.pumps[s.retirements[r].pump])
  {
    hide Ok, Step, Numbered, Enabled, Hopeless, TombRank;
    if s.retirements[r].completed {
      events := [];
    } else {
      var e := CompletionStep(s, r);
      StepKeeps(s, e);
      var rest := CanComplete(Step(s, e), r);
      LegalFirst(s, e, rest);
      events := [e] + rest;
    }
  }

  // ----- Retiring a live pump -----

  /** The next step toward the failure of a live pump. */
  function TowardFailure(p: nat, pump: Pump): Event {
    match pump.stage
    case Subscribing => SubscribeFails(p)
    case BootstrapFailed => ReportBootstrap(p)
    case Candidate => Publish(p, false, true)
    case Faulted => ReportFault(p)
    case InReceive => ReceiveReturns(p)
    case Returned => Deliver(p, true)
    case _ => ReceiveBegins(p)
  }

  /** The event takes the live pump of the topic closer to failing, and leaves its
      tombstone, if it has one, alone. */
  predicate Fails(s: State, t: Topic, e: Event)
    requires Numbered(s) && Enabled(s, e) && t in s.live && s.live[t] < |s.pumps|
  {
    var u, p := Step(s, e), s.live[t];
    && SameTopics(s, u) && u.retirements == s.retirements && |u.pumps| == |s.pumps|
    && (u.pumps[p].failed || Closer(u.pumps[p].stage, s.pumps[p].stage))
    && (forall q :: 0 <= q < |s.pumps| && q != p ==> u.pumps[q] == s.pumps[q])
    && u.pumps[p].retirement == s.pumps[p].retirement
    && (s.pumps[p].retirement.Some? ==> u.pumps[p].published == s.pumps[p].published)
  }

  lemma LiveStage(s: State, p: nat)
    requires Ok(s) && p < |s.pumps| && s.pumps[p].accepting && !s.pumps[p].failed
    ensures s.pumps[p].stage in {Subscribing, BootstrapFailed, Candidate, Faulted, InReceive, Returned, Ready}
    ensures s.pumps[p].stage == Candidate ==> s.pumps[p].retirement.None?
  {
    At(s, p);
    hide Ok, Numbered;
  }

  /** The live pump can come one step closer to failing. */
  lemma FailureStep(s: State, t: Topic) returns (e: Event)
    requires Ok(s) && LockFree(s) && t in s.live && s.live[t] < |s.pumps| && !s.pumps[s.live[t]].failed
    ensures Numbered(s) && Enabled(s, e) && Fails(s, t, e)
  {
    hide Ok, Numbered, Fails;
    OkIsNumbered(s);
    var p := s.live[t];
    LivePump(s, t);
    LiveStage(s, p);
    e := TowardFailure(p, s.pumps[p]);
    BootstrapFailure(s, t);
    ReceiveFailure(s, t);
  }

  lemma BootstrapFailure(s: State, t: Topic)
    requires Numbered(s) && LockFree(s) && t in s.live && s.live[t] < |s.pumps| && Live(s, s.live[t])
    requires s.pumps[s.live[t]].stage == Candidate ==> s.pumps[s.live[t]].retirement.None?
    ensures var p := s.live[t];
            s.pumps[p].stage in {Subscribing, BootstrapFailed, Candidate, Faulted} ==>
                Fails(s, t, TowardFailure(p, s.pumps[p]))
  {
    hide Numbered;
  }

  lemma ReceiveFailure(s: State, t: Topic)
    requires Numbered(s) && LockFree(s) && t in s.live && s.live[t] < |s.pumps| && Live(s, s.live[t])
    ensures var p := s.live[t];
            s.pumps[p].stage in {InReceive, Returned, Ready} ==> Fails(s, t, TowardFailure(p, s.pumps[p]))
  {
    hide Numbered;
  }

  /** Progress of a live pump's worker toward a failed receive. */
  predicate Closer(next: Stage, stage: Stage) {
    LiveRank(next) < LiveRank(stage)
  }

  function LiveRank(stage: Stage): nat {
    match stage
    case Subscribing => 5
    case Candidate => 5
    case Ready => 4
    case InReceive => 3
    case Returned => 2
    case BootstrapFailed => 1
    case Faulted => 1
    case _ => 0
  }

  lemma LivePump(s: State, t: Topic)
    requires Ok(s) && LockFree(s) && t in s.live
    ensures s.live[t] < |s.pumps| && s.pumps[s.live[t]].topic == t && s.pumps[s.live[t]].accepting && Live(s, s.live[t])
    ensures s.pumps[s.live[t]].retirement.None? ==> t in s.tombs ==>
              s.tombs[t] < |s.retirements| && s.retirements[s.tombs[t]].completed
  {
    hide PumpsOk, RetirementsOk, Covered, FencingOk;
  }

  lemma NotStrandedAfterFailure(s: State, u: State, t: Topic)
    requires Ok(s) && LockFree(s) && t in s.live && s.live[t] < |s.pumps| && !Stranded(s, t)
    requires Numbered(u) && u.tombs == s.tombs && u.retirements == s.retirements && |u.pumps| == |s.pumps|
    requires var p := s.live[t];
             && (forall q :: 0 <= q < |s.pumps| && q != p ==> u.pumps[q] == s.pumps[q])
             && (s.pumps[p].retirement.Some? ==> u.pumps[p].published == s.pumps[p].published)
    ensures !Stranded(u, t)
  {
    LivePump(s, t);
    var p := s.live[t];
    At(s, p);
    hide PumpsOk, RetirementsOk, Covered, FencingOk, LiveOk;
  }

  /** A live pump of a topic that is not stranded can be retired and leave it so. */
  lemma {:induction false} CanRetire(s: State, t: Topic) returns (events: seq<Event>)
    requires Ok(s) && LockFree(s) && t in s.live && s.live[t] < |s.pumps| && !Stranded(s, t)
    ensures Legal(s, events)
    ensures var u := Run(s, events);
            Ok(u) && LockFree(u) && t !in u.live && !Stranded(u, t) && Spares(s.retirements, u.retirements)
    decreases if s.pumps[s.live[t]].failed then 0 else 1 + LiveRank(s.pumps[s.live[t]].stage)
  {
    OkIsNumbered(s);
    if s.pumps[s.live[t]].failed {
      var e := CallerTerminal(t, false, true);
      LivePump(s, t);
      assert Enabled(s, e);
      StepKeeps(s, e);
      OkIsNumbered(Step(s, e));
      TerminalNotStranded(s, t);
      TerminalEffect(s, t, false, true);
      LegalFirst(s, e, []);
      events := [e] + [];
    } else {
      var e := FailureStep(s, t);
      StepKeeps(s, e);
      OkIsNumbered(Step(s, e));
      NotStrandedAfterFailure(s, Step(s, e), t);
      hide Ok, Step, Numbered, Enabled, Stranded;
      var rest := CanRetire(Step(s, e), t);
      LegalFirst(s, e, rest);
      events := [e] + rest;
    }
  }

  lemma TerminalNotStranded(s: State, t: Topic)
    requires Ok(s) && Enabled(s, CallerTerminal(t, false, true)) && !Stranded(s, t)
    requires Numbered(Terminal(s, t, false, true))
    ensures !Stranded(Terminal(s, t, false, true), t)
  {
    hide Ok, Live, Numbered, Hopeless, PumpNumbers, RetirementNumbers, LiveNumbers, TombNumbers;
    OkIsNumbered(s);
    var u := Terminal(s, t, false, true);
    var p := s.live[t];
    if s.pumps[p].published && s.pumps[p].retirement.None? {
      NewTombRuns(s, t);
    } else if t in u.tombs {
      TombTopic(s, t);
      OldTombSame(s, t);
    }
  }

  lemma NewTombRuns(s: State, t: Topic)
    requires t in s.live && s.live[t] < |s.pumps| && s.pumps[s.live[t]].topic == t
    requires s.pumps[s.live[t]].published && s.pumps[s.live[t]].retirement.None?
    requires Numbered(Terminal(s, t, false, true))
    ensures !Stranded(Terminal(s, t, false, true), t)
  {
    hide Numbered;
    var u := Terminal(s, t, false, true);
    assert u.tombs[t] == |s.retirements| && u.retirements[|s.retirements|].Running();
  }

  lemma OldTombSame(s: State, t: Topic)
    requires Numbered(s) && t in s.live && s.live[t] < |s.pumps| && t in s.tombs && !Stranded(s, t)
    requires s.tombs[t] < |s.retirements| && s.retirements[s.tombs[t]].pump < |s.pumps|
    requires !(s.pumps[s.live[t]].published && s.pumps[s.live[t]].retirement.None?)
    requires Numbered(Terminal(s, t, false, true))
    ensures !Stranded(Terminal(s, t, false, true), t)
  {
    hide Numbered;
  }

  /** With no live pump of the topic and a tombstone that is done with, at most a connect
      is missing. */
  lemma CanConnect(s: State, t: Topic) returns (events: seq<Event>)
    requires Ok(s) && LockFree(s) && t !in s.live && Unfenced(s, t)
    ensures Legal(s, events) && Enabled(Run(s, events), CreatePump(t, Launched))
    ensures Ok(Run(s, events)) && Run(s, events).retirements == s.retirements
  {
    OkIsNumbered(s);
    if s.connected {
      events := [];
    } else {
      LegalOne(s, Connect);
      StepKeeps(s, Connect);
      events := [Connect];
    }
  }

  lemma CanUnfence(s: State, t: Topic) returns (events: seq<Event>)
    requires Ok(s) && LockFree(s) && t !in s.live && Numbered(s) && !Stranded(s, t)
    ensures Legal(s, events)
    ensures var u := Run(s, events);
            Ok(u) && LockFree(u) && t !in u.live && Unfenced(u, t) && Spares(s.retirements, u.retirements)
  {
    events := [];
    if t in s.tombs && !s.retirements[s.tombs[t]].completed {
      events := CanComplete(s, s.tombs[t]);
    }
    hide Ok, Step;
  }

  /** Every topic that is not stranded can be subscribed again, without waiting for both
      closes of a consumer that two threads close. */
  lemma CanSubscribeAgain(s: State, t: Topic) returns (events: seq<Event>)
    requires Ok(s) && LockFree(s) && Numbered(s) && !Stranded(s, t)
    ensures Legal(s, events) && Enabled(Run(s, events), CreatePump(t, Launched))
    ensures Ok(Run(s, events)) && Spares(s.retirements, Run(s, events).retirements)
  {
    events := [];
    if t in s.live {
      LivePump(s, t);
      events := CanRetire(s, t);
    }
    var u := Run(s, events);
    OkIsNumbered(u);
    hide Ok, Numbered, Stranded, Enabled, Legal, Run, Unfenced;
    var more := CanUnfence(u, t);
    LegalAppend(s, events, more);
    var last := CanConnect(Run(u, more), t);
    LegalAppend(s, events + more, last);
    events := events + more + last;
  }

  lemma LegalOne(s: State, e: Event)
    requires Numbered(s) && Enabled(s, e)
    ensures Legal(s, [e]) && Run(s, [e]) == Step(s, e)
  {
    hide Step, Numbered, Enabled;
  }

  /** A topic can never be subscribed again if and only if it is stranded. */
  lemma NeverAgainIff(s: State, t: Topic)
    requires Ok(s) && LockFree(s)
    ensures Numbered(s)
    ensures Stranded(s, t) <==> forall events, launch :: Legal(s, events) ==>
              !Enabled(Run(s, events), CreatePump(t, launch))
  {
    OkIsNumbered(s);
    if Stranded(s, t) {
      forall events, launch | Legal(s, events) ensures !Enabled(Run(s, events), CreatePump(t, launch)) {
        StrandedForever(s, events, t, launch);
      }
    } else {
      var events := CanSubscribeAgain(s, t);
      assert Enabled(Run(s, events), CreatePump(t, Launched));
    }
  }

  // ----- Reaching such a state -----

  /** A pump whose thread start failed in a way that leaves open whether it ran, and which
      did not run, strands its topic at once. */
  lemma AmbiguousStartStrands(s: State, t: Topic)
    requires Ok(s) && Enabled(s, CreatePump(t, Ambiguous(false)))
    ensures Numbered(s) && Ok(Step(s, CreatePump(t, Ambiguous(false))))
    ensures Numbered(Step(s, CreatePump(t, Ambiguous(false)))) && Stranded(Step(s, CreatePump(t, Ambiguous(false))), t)
  {
    StepKeeps(s, CreatePump(t, Ambiguous(false)));
    OkIsNumbered(s);
    OkIsNumbered(Step(s, CreatePump(t, Ambiguous(false))));
    hide Ok;
  }

  /** The states of a run in which a disconnect fences a pump just after its worker, whose
      subscription failed, has read that it has no retirement. */
  function AfterBootstrap(t: Topic): State {
    State([Pump(t, 1, true, false, true, None, Saw(None))], [], map[t := 0], map[], true, 1, None, {})
  }

  function AfterDisconnect(t: Topic): State {
    State([Pump(t, 1, false, false, true, Some(0), Saw(None))], [Tombstone(0, false, false, false)],
          map[], map[t := 0], false, 2, None, {})
  }

  function BootstrapEvents(t: Topic): seq<Event> {
    [Connect, CreatePump(t, Launched), SubscribeFails(0), ReportBootstrap(0), ReadRetirement(0)]
  }

  /** The states on the way there. */
  function Bootstrapping(t: Topic, n: nat): State {
    var pump := Pump(t, 1, true, false, false, None, Subscribing);
    match n
    case 0 => Empty()
    case 1 => State([], [], map[], map[], true, 1, None, {})
    case 2 => State([pump], [], map[t := 0], map[], true, 1, None, {})
    case 3 => State([pump.(stage := BootstrapFailed)], [], map[t := 0], map[], true, 1, None, {})
    case 4 => State([pump.(stage := Final, failed := true)], [], map[t := 0], map[], true, 1, None, {})
    case _ => AfterBootstrap(t)
  }

  lemma BootstrapConnects(t: Topic)
    ensures Goes(Bootstrapping(t, 0), Connect, Bootstrapping(t, 1))
    ensures Goes(Bootstrapping(t, 1), CreatePump(t, Launched), Bootstrapping(t, 2))
  {
  }

  lemma BootstrapFails(t: Topic)
    ensures Goes(Bootstrapping(t, 2), SubscribeFails(0), Bootstrapping(t, 3))
    ensures Goes(Bootstrapping(t, 3), ReportBootstrap(0), Bootstrapping(t, 4))
  {
  }

  lemma BootstrapReads(t: Topic)
    ensures Goes(Bootstrapping(t, 4), ReadRetirement(0), Bootstrapping(t, 5))
  {
  }

  predicate Goes(s: State, e: Event, u: State) {
    Numbered(s) && Enabled(s, e) && Step(s, e) == u
  }

  lemma GoesOn(s: State, e: Event, u: State, rest: seq<Event>, end: State)
    requires Goes(s, e, u) && Legal(u, rest) && Run(u, rest) == end
    ensures Legal(s, [e] + rest) && Run(s, [e] + rest) == end
  {
    hide Step, Numbered, Enabled;
    assert ([e] + rest)[1..] == rest;
  }

  lemma BootstrapRun(t: Topic)
    ensures Legal(Empty(), BootstrapEvents(t)) && Run(Empty(), BootstrapEvents(t)) == AfterBootstrap(t)
  {
    var events := BootstrapEvents(t);
    assert events == [events[0]] + ([events[1]] + ([events[2]] + ([events[3]] + ([events[4]] + []))));
    assert Bootstrapping(t, 0) == Empty() && Bootstrapping(t, 5) == AfterBootstrap(t);
    assert Legal(AfterBootstrap(t), []) && Run(AfterBootstrap(t), []) == AfterBootstrap(t);
    hide Goes, Bootstrapping, Legal, Run;
    BootstrapConnects(t);
    BootstrapFails(t);
    BootstrapReads(t);
    GoesOn(Bootstrapping(t, 4), ReadRetirement(0), Bootstrapping(t, 5), [], AfterBootstrap(t));
    GoesOn(Bootstrapping(t, 3), ReportBootstrap(0), Bootstrapping(t, 4), [events[4]] + [], AfterBootstrap(t));
    GoesOn(Bootstrapping(t, 2), SubscribeFails(0), Bootstrapping(t, 3), [events[3]] + ([events[4]] + []),
           AfterBootstrap(t));
    GoesOn(Bootstrapping(t, 1), CreatePump(t, Launched), Bootstrapping(t, 2),
           [events[2]] + ([events[3]] + ([events[4]] + [])), AfterBootstrap(t));
    GoesOn(Bootstrapping(t, 0), Connect, Bootstrapping(t, 1),
           [events[1]] + ([events[2]] + ([events[3]] + ([events[4]] + []))), AfterBootstrap(t));
  }

  lemma OneLive(t: Topic)
    ensures (map[t := 0]).Values == {0}
  {
    assert (map[t := 0])[t] in (map[t := 0]).Values;
  }

  function Fencing(t: Topic): State {
    AfterBootstrap(t).(fencing := Some({0}))
  }

  function Fenced(t: Topic): State {
    State([Pump(t, 1, false, false, true, Some(0), Saw(None))], [Tombstone(0, false, false, false)],
          map[t := 0], map[t := 0], true, 1, Some({}), {})
  }

  lemma FenceOne(t: Topic)
    ensures Numbered(Fencing(t)) && Enabled(Fencing(t), FencePump(0, false, false, false))
    ensures Step(Fencing(t), FencePump(0, false, false, false)) == Fenced(t)
  {
    var s := Fencing(t);
    var todo: set<nat> := {0};
    assert todo - {0} == {};
    var u := Fence(s, 0, false, false, false);
    assert u.pumps == Fenced(t).pumps;
    assert u.retirements == Fenced(t).retirements;
    assert u.tombs == Fenced(t).tombs;
  }

  function FenceEvents(): seq<Event> {
    [BeginDisconnect, FencePump(0, false, false, false), EndDisconnect]
  }

  lemma FenceBegins(t: Topic)
    ensures Goes(AfterBootstrap(t), BeginDisconnect, Fencing(t))
  {
    OneLive(t);
  }

  lemma FenceEnds(t: Topic)
    ensures Goes(Fenced(t), EndDisconnect, AfterDisconnect(t))
  {
  }

  lemma FenceRun(t: Topic)
    ensures Legal(AfterBootstrap(t), FenceEvents()) && Run(AfterBootstrap(t), FenceEvents()) == AfterDisconnect(t)
  {
    var events := FenceEvents();
    assert events == [events[0]] + ([events[1]] + ([events[2]] + []));
    assert Legal(AfterDisconnect(t), []) && Run(AfterDisconnect(t), []) == AfterDisconnect(t);
    FenceBegins(t);
    FenceOne(t);
    FenceEnds(t);
    assert Goes(Fencing(t), FencePump(0, false, false, false), Fenced(t)) by { hide Step, Numbered, Enabled; }
    hide Goes, AfterBootstrap, Fencing, Fenced, AfterDisconnect, Legal, Run;
    GoesOn(Fenced(t), EndDisconnect, AfterDisconnect(t), [], AfterDisconnect(t));
    GoesOn(Fencing(t), FencePump(0, false, false, false), Fenced(t), [events[2]] + [], AfterDisconnect(t));
    GoesOn(AfterBootstrap(t), BeginDisconnect, Fencing(t), [events[1]] + ([events[2]] + []), AfterDisconnect(t));
  }

  /** Such a state is reached: the placeholder is created after the worker has looked. */
  lemma TombstoneCanStrand(t: Topic)
    ensures Legal(Empty(), BootstrapEvents(t)) && Run(Empty(), BootstrapEvents(t)) == AfterBootstrap(t)
    ensures Legal(AfterBootstrap(t), FenceEvents()) && Run(AfterBootstrap(t), FenceEvents()) == AfterDisconnect(t)
    ensures Stranded(AfterDisconnect(t), t) && Ok(AfterDisconnect(t))
  {
    EmptyOk();
    BootstrapRun(t);
    RunKeeps(Empty(), BootstrapEvents(t));
    FenceRun(t);
    RunKeeps(AfterBootstrap(t), FenceEvents());
  }
}
