/** Subscriptions of the Pulsar backend: one receive pump per topic, and the retirement
    tombstones that keep a replacement away while an old consumer may still be open
    (src/scrapy_extension/backends/pulsar.py).  Every event below is one critical section
    of the lifecycle lock, or one step of a pump's worker outside it. */
module PulsarPumps {
  import opened Options

  type Topic = string

  /** Where a pump's worker is.  `Saw` is the worker past its unlocked read of the pump's
      retirement; `Never` is a worker whose thread did not start. */
  datatype Stage =
    | Subscribing
    | BootstrapFailed
    | Candidate
    | Faulted
    | Ready
    | InReceive
    | Returned
    | Closing(retirement: nat)
    | Final
    | Saw(seen: Option<nat>)
    | Stopped
    | Never

  /** `published` says that the pump's consumer is set; each pump subscribes once, so its
      number also names its consumer. */
  datatype Pump = Pump(topic: Topic, generation: nat, accepting: bool, published: bool, failed: bool,
                       retirement: Option<nat>, stage: Stage)

  /** One call of `close` on a retired consumer. */
  datatype Close = NotBegun | Begun | Ended

  /** Who calls it: the retirement's own thread, low-level fallback included, or the pump's
      worker.  Nothing keeps the two apart. */
  datatype Closer = ByThread | ByWorker

  /** A tombstone.  `attached`: it has a consumer to close; `free`: the pump's worker would
      find that no thread owns the close; `thread` and `worker`: the close of either. */
  datatype Retirement =
    Retirement(pump: nat, attached: bool, free: bool, thread: Close, worker: Close, completed: bool)
  {
    predicate Running() { thread != NotBegun || worker != NotBegun }

    /** Some close has returned. */
    predicate Closed() { thread == Ended || worker == Ended }

    function CloseOf(who: Closer): Close {
      if who == ByThread then thread else worker
    }

    function Closes(who: Closer, close: Close): Retirement {
      if who == ByThread then this.(thread := close) else this.(worker := close)
    }
  }

  /** A fresh tombstone of the pump; with `runs` its thread runs the close. */
  function Tombstone(p: nat, attached: bool, free: bool, runs: bool): Retirement {
    Retirement(p, attached, free, if runs then Begun else NotBegun, NotBegun, false)
  }

  /** `fencing` holds the pumps a disconnect has still to fence while it keeps the
      lifecycle lock; `open` the pumps whose consumer may be open. */
  datatype State = State(
    pumps: seq<Pump>,
    retirements: seq<Retirement>,
    live: map<Topic, nat>,
    tombs: map<Topic, nat>,
    connected: bool,
    generation: nat,
    fencing: Option<set<nat>>,
    open: set<nat>)

  /** What starting a pump's thread did: `Ambiguous` raised after it may have run. */
  datatype Launch = Launched | Ambiguous(runs: bool) | Unstarted

  /** `CloseReturns` is one of the two calls returning.  The first caller past it sets
      `completed`, the second only sets it again.

      Where a close thread is started, `runs` says whether one runs in the end, and `free`
      whether the pump's worker would find none recorded: the start failed for certain, or
      the worker looked just before the thread was recorded. */
  datatype Event =
    | Connect
    | CreatePump(topic: Topic, launch: Launch)
    | SubscribeReturns(p: nat)
    | SubscribeFails(p: nat)
    | ReportBootstrap(p: nat)
    | Publish(p: nat, free: bool, runs: bool)
    | PublicationFault(p: nat, free: bool, runs: bool)
    | ReportFault(p: nat)
    | ReceiveBegins(p: nat)
    | ReceiveReturns(p: nat)
    | Deliver(p: nat, failed: bool)
    | WorkerLeaves(p: nat)
    | CallerTerminal(topic: Topic, free: bool, runs: bool)
    | BeginDisconnect
    | FencePump(p: nat, reentrant: bool, free: bool, runs: bool)
    | EndDisconnect
    | CloseReturns(r: nat, who: Closer)
    | Completes(r: nat)
    | DropTomb(r: nat)
    | ReadRetirement(p: nat)
    | FinishPlaceholder(p: nat)
    | AdoptRetirement(p: nat)
    | WorkerClosed(p: nat)
    | WorkerStops(p: nat)

  function Get(m: map<Topic, nat>, t: Topic): Option<nat> {
    if t in m then Some(m[t]) else None
  }

  predicate LockFree(s: State) {
    s.fencing.None?
  }

  /** `generation_is_live`. */
  predicate Live(s: State, p: nat)
    requires p < |s.pumps|
  {
    && s.pumps[p].accepting && s.connected && s.generation == s.pumps[p].generation
    && Get(s.live, s.pumps[p].topic) == Some(p)
  }

  predicate AtStage(s: State, p: nat, stage: Stage) {
    p < |s.pumps| && s.pumps[p].stage == stage
  }

  /** No incomplete tombstone stands for the topic. */
  predicate Unfenced(s: State, t: Topic) {
    t in s.tombs ==> s.tombs[t] < |s.retirements| && s.retirements[s.tombs[t]].completed
  }

  predicate Enabled(s: State, e: Event) {
    match e
    case Connect => LockFree(s) && !s.connected
    case CreatePump(t, _) => LockFree(s) && s.connected && Unfenced(s, t) && t !in s.live
    case SubscribeReturns(p) => AtStage(s, p, Subscribing)
    case SubscribeFails(p) => AtStage(s, p, Subscribing)
    case ReportBootstrap(p) => LockFree(s) && AtStage(s, p, BootstrapFailed)
    case Publish(p, _, _) => LockFree(s) && AtStage(s, p, Candidate)
    case PublicationFault(p, _, _) => LockFree(s) && AtStage(s, p, Candidate)
    case ReportFault(p) => AtStage(s, p, Faulted)
    case ReceiveBegins(p) => AtStage(s, p, Ready) && s.pumps[p].accepting
    case ReceiveReturns(p) => AtStage(s, p, InReceive)
    case Deliver(p, _) => LockFree(s) && AtStage(s, p, Returned)
    case WorkerLeaves(p) => AtStage(s, p, Ready) && !s.pumps[p].accepting
    case CallerTerminal(t, _, _) =>
      LockFree(s) && t in s.live && s.live[t] < |s.pumps| && s.pumps[s.live[t]].topic == t && s.pumps[s.live[t]].failed
          && Live(s, s.live[t])
    case BeginDisconnect => LockFree(s)
    case FencePump(p, reentrant, _, _) =>
      s.fencing.Some? && p in s.fencing.value && p < |s.pumps| && (reentrant ==> AtStage(s, p, InReceive))
    case EndDisconnect => s.fencing == Some({})
    case CloseReturns(r, who) => r < |s.retirements| && s.retirements[r].CloseOf(who) == Begun
    case Completes(r) => r < |s.retirements| && s.retirements[r].Closed() && !s.retirements[r].completed
    case DropTomb(r) => LockFree(s) && r < |s.retirements| && s.retirements[r].completed && r in s.tombs.Values
    case ReadRetirement(p) => AtStage(s, p, Final)
    case FinishPlaceholder(p) =>
      p < |s.pumps| && s.pumps[p].stage.Saw? && s.pumps[p].stage.seen.Some?
      && s.pumps[p].stage.seen.value < |s.retirements| && !s.retirements[s.pumps[p].stage.seen.value].attached
    case AdoptRetirement(p) =>
      p < |s.pumps| && s.pumps[p].stage.Saw? && s.pumps[p].stage.seen.Some? && s.pumps[p].published
      && s.pumps[p].stage.seen.value < |s.retirements|
      && s.retirements[s.pumps[p].stage.seen.value].attached && s.retirements[s.pumps[p].stage.seen.value].free
    case WorkerClosed(p) =>
      p < |s.pumps| && s.pumps[p].stage.Closing? && s.pumps[p].stage.retirement < |s.retirements|
      && s.retirements[s.pumps[p].stage.retirement].worker == Ended
      && s.retirements[s.pumps[p].stage.retirement].completed
    case WorkerStops(p) =>
      p < |s.pumps| && s.pumps[p].stage.Saw?
      && (s.pumps[p].stage.seen.Some? ==>
            && s.pumps[p].stage.seen.value < |s.retirements|
            && s.retirements[s.pumps[p].stage.seen.value].attached
            && !(s.pumps[p].published && s.retirements[s.pumps[p].stage.seen.value].free))
  }

  function SetPump(s: State, p: nat, pump: Pump): State
    requires p < |s.pumps|
  {
    s.(pumps := s.pumps[p := pump])
  }

  function SetStage(s: State, p: nat, stage: Stage): State
    requires p < |s.pumps|
  {
    SetPump(s, p, s.pumps[p].(stage := stage))
  }

  /** `_new_consumer_retirement_locked`, and with `runs` the thread that
      `_start_consumer_retirement_locked` starts. */
  function Entomb(s: State, p: nat, attached: bool, free: bool, runs: bool): State
    requires p < |s.pumps|
  {
    s.(retirements := s.retirements + [Tombstone(p, attached, free, runs)],
       pumps := s.pumps[p := s.pumps[p].(retirement := Some(|s.retirements|))],
       tombs := s.tombs[s.pumps[p].topic := |s.retirements|])
  }

  function SetRetirement(s: State, r: nat, retirement: Retirement): State
    requires r < |s.retirements|
  {
    s.(retirements := s.retirements[r := retirement])
  }

  /** `_close_stale_pump_candidate`; `next` is where the worker goes when a thread of its
      own closes the candidate. */
  function CloseStale(s: State, p: nat, free: bool, runs: bool, next: Stage): State
    requires p < |s.pumps|
    requires s.pumps[p].retirement.Some? ==> s.pumps[p].retirement.value < |s.retirements|
  {
    if s.pumps[p].retirement.None? then SetStage(Entomb(s, p, true, free, runs), p, next)
    else
      var r := s.pumps[p].retirement.value;
      SetStage(SetRetirement(s, r, s.retirements[r].(attached := true, free := false, worker := Begun)), p, Closing(r))
  }

  function Create(s: State, t: Topic, launch: Launch): State {
    var p := |s.pumps|;
    var pump := Pump(t, s.generation, true, false, false, None, Subscribing);
    match launch
    case Launched => s.(pumps := s.pumps + [pump], live := s.live[t := p], tombs := s.tombs - {t})
    case Unstarted => s.(pumps := s.pumps + [pump.(accepting := false, stage := Never)], tombs := s.tombs - {t})
    case Ambiguous(runs) =>
      var stage := if runs then Subscribing else Never;
      var u := s.(pumps := s.pumps + [pump.(accepting := false, stage := stage)], tombs := s.tombs - {t});
      Entomb(u, p, false, false, false)
  }

  /** One pump fenced by `disconnect`. */
  function Fence(s: State, p: nat, reentrant: bool, free: bool, runs: bool): State
    requires p < |s.pumps| && s.fencing.Some?
  {
    var u := SetPump(s, p, s.pumps[p].(accepting := false)).(fencing := Some(s.fencing.value - {p}));
    if s.pumps[p].retirement.Some? then u
    else if s.pumps[p].published then Entomb(u, p, true, free || reentrant, runs && !reentrant)
    else if s.pumps[p].stage != Stopped then Entomb(u, p, false, false, false)
    else u
  }

  function Terminal(s: State, t: Topic, free: bool, runs: bool): State
    requires t in s.live && s.live[t] < |s.pumps|
  {
    var p := s.live[t];
    var u := SetPump(s, p, s.pumps[p].(accepting := false)).(live := s.live - {t});
    if s.pumps[p].published && s.pumps[p].retirement.None? then Entomb(u, p, true, free, runs) else u
  }

  // A pump and its retirement point at each other; topics lead to pumps of that topic.

  predicate PumpNumbers(pumps: seq<Pump>, retirements: seq<Retirement>) {
    forall p :: 0 <= p < |pumps| && pumps[p].retirement.Some? ==>
      pumps[p].retirement.value < |retirements| && retirements[pumps[p].retirement.value].pump == p
  }

  predicate RetirementNumbers(pumps: seq<Pump>, retirements: seq<Retirement>) {
    forall r :: 0 <= r < |retirements| ==>
        retirements[r].pump < |pumps| && pumps[retirements[r].pump].retirement == Some(r)
  }

  predicate LiveNumbers(pumps: seq<Pump>, live: map<Topic, nat>) {
    forall t :: t in live ==> live[t] < |pumps| && pumps[live[t]].topic == t
  }

  predicate TombNumbers(pumps: seq<Pump>, retirements: seq<Retirement>, tombs: map<Topic, nat>) {
    forall t :: t in tombs ==>
      tombs[t] < |retirements| && retirements[tombs[t]].pump < |pumps| && pumps[retirements[tombs[t]].pump].topic == t
  }

  predicate OpenNumbers(pumps: seq<Pump>, open: set<nat>) {
    forall p :: p in open ==> p < |pumps|
  }

  predicate StageNumbers(pump: Pump) {
    && (pump.stage.Closing? ==> pump.retirement == Some(pump.stage.retirement))
    && (pump.stage.Saw? && pump.stage.seen.Some? ==> pump.retirement == pump.stage.seen)
  }

  /** The numbers a state holds are in range. */
  predicate Numbered(s: State) {
    && PumpNumbers(s.pumps, s.retirements)
    && RetirementNumbers(s.pumps, s.retirements)
    && LiveNumbers(s.pumps, s.live)
    && TombNumbers(s.pumps, s.retirements, s.tombs)
    && OpenNumbers(s.pumps, s.open)
    && (forall p :: 0 <= p < |s.pumps| ==> StageNumbers(s.pumps[p]))
  }

  function Step(s: State, e: Event): State
    requires Numbered(s) && Enabled(s, e)
  {
    match e
    case Connect => s.(connected := true, generation := s.generation + 1)
    case CreatePump(t, launch) => Create(s, t, launch)
    case SubscribeReturns(p) => SetStage(s, p, Candidate).(open := s.open + {p})
    case SubscribeFails(p) => SetStage(s, p, BootstrapFailed)
    case ReportBootstrap(p) => SetPump(s, p, s.pumps[p].(failed := s.pumps[p].failed || Live(s, p), stage := Final))
    case Publish(p, free, runs) =>
      if Live(s, p) then SetPump(s, p, s.pumps[p].(published := true, stage := Ready))
      else CloseStale(s, p, free, runs, Final)
    case PublicationFault(p, free, runs) => CloseStale(s, p, free, runs, Faulted)
    case ReportFault(p) =>
      SetPump(s, p, s.pumps[p].(failed := s.pumps[p].failed || s.pumps[p].accepting, stage := Final))
    case ReceiveBegins(p) => SetStage(s, p, InReceive)
    case ReceiveReturns(p) => SetStage(s, p, Returned)
    case Deliver(p, failed) =>
      if !Live(s, p) then SetStage(s, p, Final)
      else if failed then SetPump(s, p, s.pumps[p].(failed := true, stage := Final))
      else SetStage(s, p, Ready)
    case WorkerLeaves(p) => SetStage(s, p, Final)
    case CallerTerminal(t, free, runs) => Terminal(s, t, free, runs)
    case BeginDisconnect => s.(fencing := Some(s.live.Values))
    case FencePump(p, reentrant, free, runs) => Fence(s, p, reentrant, free, runs)
    case EndDisconnect => s.(fencing := None, live := map[], connected := false, generation := s.generation + 1)
    case CloseReturns(r, who) =>
      SetRetirement(s, r, s.retirements[r].Closes(who, Ended)).(open := s.open - {s.retirements[r].pump})
    case Completes(r) => SetRetirement(s, r, s.retirements[r].(completed := true))
    case DropTomb(r) => s.(tombs := map t | t in s.tombs && s.tombs[t] != r :: s.tombs[t])
    case ReadRetirement(p) => SetStage(s, p, Saw(s.pumps[p].retirement))
    case FinishPlaceholder(p) =>
      var r := s.pumps[p].stage.seen.value;
      SetStage(SetRetirement(s, r, s.retirements[r].(completed := true)), p, Stopped)
    case AdoptRetirement(p) =>
      var r := s.pumps[p].stage.seen.value;
      SetStage(SetRetirement(s, r, s.retirements[r].(free := false, worker := Begun)), p, Closing(r))
    case WorkerClosed(p) => SetStage(s, p, if s.pumps[p].published then Stopped else Final)
    case WorkerStops(p) => SetStage(s, p, Stopped)
  }
}
