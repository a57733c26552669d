/** The three-state circuit breaker (src/scrapy_extension/backends/circuit_breaker.py,
    class `CircuitBreaker`).  The functions are the bodies that run under `_lock`; the
    protected call itself runs outside, so its outcome comes back at any later step. */
module Breaker {
  import opened Options

  datatype State = Closed | Open | HalfOpen

  /** `_CallAdmission`. */
  datatype Admission = Admission(state: State, epoch: nat)

  datatype Config = Config(threshold: nat, timeout: real)

  predicate ValidConfig(c: Config) {
    c.threshold >= 1 && c.timeout >= 0.0
  }

  datatype Fields = Fields(
    state: State,
    failures: nat,
    lastFailure: Option<real>,
    epoch: nat,
    probing: bool,
    probeStarted: Option<real>,
    pending: seq<State>)

  const Initial := Fields(Closed, 0, None, 0, false, None, [])

  /** `_allow_call`.  The clock is read at `now`, and once more, at `later`, when a
      hung probe re-opens the breaker. */
  function AllowCall(c: Config, b: Fields, now: real, later: real): (Fields, Admission) {
    match b.state
    case Closed => (b, Admission(Closed, b.epoch))
    case Open =>
      if b.lastFailure.Some? && now - b.lastFailure.value >= c.timeout then
        (b.(state := HalfOpen, epoch := b.epoch + 1, probing := true, probeStarted := Some(now),
            pending := b.pending + [HalfOpen]),
         Admission(HalfOpen, b.epoch + 1))
      else (b, Admission(Open, b.epoch))
    case HalfOpen =>
      if !b.probing then (b.(probing := true, probeStarted := Some(now)), Admission(HalfOpen, b.epoch))
      else if c.timeout > 0.0 && b.probeStarted.Some? && now - b.probeStarted.value >= c.timeout then
        (b.(state := Open, epoch := b.epoch + 1, failures := 0, lastFailure := Some(later),
            probing := false, probeStarted := None, pending := b.pending + [Open]),
         Admission(Open, b.epoch + 1))
      else (b, Admission(Open, b.epoch))
  }

  predicate IsFresh(b: Fields, a: Admission) {
    a.epoch == b.epoch && a.state == b.state
  }

  /** `_record_success`. */
  function RecordSuccess(b: Fields, a: Admission): Fields {
    if !IsFresh(b, a) then b
    else
      var cleared := b.(failures := 0, lastFailure := None);
      if a.state == HalfOpen then
        cleared.(state := Closed, epoch := b.epoch + 1, probing := false, probeStarted := None,
                 pending := b.pending + [Closed])
      else cleared
  }

  /** `_record_failure`. */
  function RecordFailure(c: Config, b: Fields, a: Admission, now: real): Fields {
    if !IsFresh(b, a) then b
    else
      var marked := b.(lastFailure := Some(now));
      if a.state == HalfOpen then
        marked.(state := Open, epoch := b.epoch + 1, failures := 0, probing := false, probeStarted := None,
                pending := b.pending + [Open])
      else if b.failures + 1 >= c.threshold then
        marked.(failures := b.failures + 1, state := Open, epoch := b.epoch + 1, pending := b.pending + [Open])
      else marked.(failures := b.failures + 1)
  }

  /** `_release_probe`.  It frees the slot but keeps the recorded start time. */
  function ReleaseProbe(b: Fields, a: Admission): Fields {
    if a.state == HalfOpen && IsFresh(b, a) then b.(probing := false) else b
  }

  function Reset(b: Fields): Fields {
    Fields(Closed, 0, None, b.epoch + 1, false, None, if b.state != Closed then b.pending + [Closed] else b.pending)
  }

  /** How a protected call ends.  `NotCounted` stands for process control, the durable
      push rejection, and exceptions outside `failure_exceptions`. */
  datatype Outcome = Success | Failure | NotCounted

  function Settle(c: Config, b: Fields, a: Admission, outcome: Outcome, now: real): Fields {
    match outcome
    case Success => RecordSuccess(b, a)
    case Failure => RecordFailure(c, b, a, now)
    case NotCounted => ReleaseProbe(b, a)
  }

  // ----- Runs -----

  /** The breaker among its callers: `calls` are the admitted calls that have not come
      back, `settled` the outcomes (true for success) recorded in the current epoch,
      and `emitted` what observers have been told. */
  datatype World = World(b: Fields, calls: multiset<Admission>, clock: real, settled: seq<bool>, emitted: seq<State>)

  const Start := World(Initial, multiset{}, 0.0, [], [])

  datatype Event =
    | Begin(now: real, later: real)
    | Finish(call: Admission, outcome: Outcome, now: real)
    | ResetBreaker
    | Notify

  function SettledNext(w: World, b: Fields, a: Admission, outcome: Outcome): seq<bool> {
    if b.epoch != w.b.epoch then []
    else if IsFresh(w.b, a) && outcome != NotCounted then w.settled + [outcome == Success]
    else w.settled
  }

  /** An event whose guard fails leaves the world as it is: the clock does not go back,
      and only an outstanding call can come back. */
  function Step(c: Config, w: World, e: Event): World {
    match e
    case Begin(now, later) =>
      if !(w.clock <= now <= later) then w
      else
        var (b, a) := AllowCall(c, w.b, now, later);
        World(b, if a.state == Open then w.calls else w.calls + multiset{a}, later,
              if b.epoch != w.b.epoch then [] else w.settled, w.emitted)
    case Finish(a, outcome, now) =>
      if !(w.clock <= now && a in w.calls) then w
      else
        var b := Settle(c, w.b, a, outcome, now);
        World(b, w.calls - multiset{a}, now, SettledNext(w, b, a, outcome), w.emitted)
    case ResetBreaker => w.(b := Reset(w.b), settled := [])
    case Notify => w.(b := w.b.(pending := []), emitted := w.emitted + w.b.pending)
  }

  function Run(c: Config, w: World, trace: seq<Event>): World {
    if trace == [] then w else Step(c, Run(c, w, trace[..|trace| - 1]), trace[|trace| - 1])
  }

  /** The length of the run of failures that ends a history of outcomes. */
  function TrailingFailures(s: seq<bool>): nat {
    if s == [] || s[|s| - 1] then 0 else 1 + TrailingFailures(s[..|s| - 1])
  }

  predicate Legal(s: State, t: State) {
    match s
    case Closed => t == Open
    case Open => t == HalfOpen || t == Closed
    case HalfOpen => t == Open || t == Closed
  }

  /** A log of transitions that starts in `s`, takes legal steps only, and ends in `t`. */
  predicate Chain(s: State, log: seq<State>, t: State)
    decreases |log|
  {
    if log == [] then s == t else Legal(s, log[0]) && Chain(log[0], log[1..], t)
  }

  lemma {:induction false} ChainGrows(s: State, log: seq<State>, t: State, u: State)
    requires Chain(s, log, t) && Legal(t, u)
    ensures Chain(s, log + [u], u)
    decreases |log|
  {
    if log == [] {
      assert [] + [u] == [u];
    } else {
      ChainGrows(log[0], log[1..], t, u);
      assert (log + [u])[1..] == log[1..] + [u];
    }
  }

  predicate ProbeOk(w: World) {
    && w.calls[Admission(HalfOpen, w.b.epoch)] == (if w.b.probing then 1 else 0)
    && (w.b.probing ==> w.b.state == HalfOpen && w.b.probeStarted.Some? && w.b.probeStarted.value <= w.clock)
    && (w.b.probeStarted.Some? <==> w.b.state == HalfOpen)
    && (forall a :: a in w.calls ==>
         a.epoch <= w.b.epoch && a.state != Open && (a.epoch == w.b.epoch ==> a.state == w.b.state))
  }

  predicate TimesOk(w: World) {
    && (w.b.state == Open ==> w.b.lastFailure.Some?)
    && (w.b.lastFailure.Some? ==> w.b.lastFailure.value <= w.clock)
  }

  predicate CountOk(c: Config, w: World) {
    w.b.state == Closed ==> w.b.failures == TrailingFailures(w.settled) < c.threshold
  }

  predicate LogOk(w: World) {
    Chain(Closed, w.emitted + w.b.pending, w.b.state)
  }

  predicate Ok(c: Config, w: World) {
    ProbeOk(w) && TimesOk(w) && CountOk(c, w) && LogOk(w)
  }

  lemma LogGrows(w: World, b: Fields)
    requires LogOk(w)
    requires if b.state == w.b.state then b.pending == w.b.pending
             else b.pending == w.b.pending + [b.state] && Legal(w.b.state, b.state)
    ensures Chain(Closed, w.emitted + b.pending, b.state)
  {
    if b.state != w.b.state {
      ChainGrows(Closed, w.emitted + w.b.pending, w.b.state, b.state);
      assert w.emitted + b.pending == w.emitted + w.b.pending + [b.state];
    }
  }

  lemma BeginKeepsProbe(c: Config, w: World, now: real, later: real)
    requires ProbeOk(w)
    ensures ProbeOk(Step(c, w, Begin(now, later)))
  {
    var (b, a) := AllowCall(c, w.b, now, later);
    assert b.epoch > w.b.epoch ==> w.calls[Admission(HalfOpen, b.epoch)] == 0;
  }

  lemma FinishKeepsProbe(c: Config, w: World, a: Admission, outcome: Outcome, now: real)
    requires ProbeOk(w)
    ensures ProbeOk(Step(c, w, Finish(a, outcome, now)))
  {
    var n := Step(c, w, Finish(a, outcome, now));
    assert n.b.epoch > w.b.epoch ==> w.calls[Admission(HalfOpen, n.b.epoch)] == 0;
    assert forall x :: x in n.calls ==> x in w.calls;
  }

  lemma StepKeepsProbe(c: Config, w: World, e: Event)
    requires ProbeOk(w)
    ensures ProbeOk(Step(c, w, e))
  {
    match e
    case Begin(now, later) => BeginKeepsProbe(c, w, now, later);
    case Finish(a, outcome, now) => FinishKeepsProbe(c, w, a, outcome, now);
    case ResetBreaker => assert w.calls[Admission(HalfOpen, w.b.epoch + 1)] == 0;
    case Notify =>
  }

  lemma StepKeepsTimes(c: Config, w: World, e: Event)
    requires ProbeOk(w) && TimesOk(w)
    ensures TimesOk(Step(c, w, e))
  {
  }

  lemma StepKeepsCount(c: Config, w: World, e: Event)
    requires ValidConfig(c) && CountOk(c, w)
    ensures CountOk(c, Step(c, w, e))
  {
    if e.Finish? && w.clock <= e.now && e.call in w.calls {
      var s := w.settled + [e.outcome == Success];
      assert s[..|s| - 1] == w.settled;
    }
  }

  lemma StepKeepsLog(c: Config, w: World, e: Event)
    requires ProbeOk(w) && LogOk(w)
    ensures LogOk(Step(c, w, e))
  {
    var n := Step(c, w, e);
    if e.Notify? {
      assert n.emitted + n.b.pending == w.emitted + w.b.pending;
    } else {
      LogGrows(w, n.b);
    }
  }

  lemma StepKeeps(c: Config, w: World, e: Event)
    requires ValidConfig(c) && Ok(c, w)
    ensures Ok(c, Step(c, w, e))
  {
    hide Step;
    StepKeepsProbe(c, w, e);
    StepKeepsTimes(c, w, e);
    StepKeepsCount(c, w, e);
    StepKeepsLog(c, w, e);
  }

  lemma {:induction false} RunOk(c: Config, trace: seq<Event>)
    requires ValidConfig(c)
    ensures Ok(c, Run(c, Start, trace))
  {
    if trace != [] {
      RunOk(c, trace[..|trace| - 1]);
      StepKeeps(c, Run(c, Start, trace[..|trace| - 1]), trace[|trace| - 1]);
    } else {
      assert [] + Initial.pending == [];
    }
  }

  /** Single probe.  In every reachable state the slot is taken exactly when one
      outstanding call carries a half-open admission of the current epoch, and there is
      never a second one; a current admission always names the current state. */
  lemma SingleProbe(c: Config, trace: seq<Event>)
    requires ValidConfig(c)
    ensures var w := Run(c, Start, trace);
            && (w.b.probing <==> w.calls[Admission(HalfOpen, w.b.epoch)] == 1)
            && w.calls[Admission(HalfOpen, w.b.epoch)] <= 1
            && (w.b.probing ==> w.b.state == HalfOpen)
            && (forall a :: a in w.calls && a.epoch == w.b.epoch ==> a.state == w.b.state)
  {
    RunOk(c, trace);
  }

  /** While closed, the count is the run of failures that ends the outcomes recorded in
      this epoch, and below the threshold.  A failure trips the breaker exactly when it
      makes that run reach the threshold; an outcome of an older epoch changes nothing. */
  lemma CountsTrailingRun(c: Config, trace: seq<Event>, a: Admission, outcome: Outcome, now: real)
    requires ValidConfig(c)
    requires var w := Run(c, Start, trace); a in w.calls && w.clock <= now
    ensures var w := Run(c, Start, trace);
            var n := Step(c, w, Finish(a, outcome, now));
            && (w.b.state == Closed ==> w.b.failures == TrailingFailures(w.settled) < c.threshold)
            && (a.epoch != w.b.epoch ==> n.b == w.b)
            && (a.epoch == w.b.epoch && w.b.state == Closed ==>
                  (n.b.state == Open <==> outcome == Failure && TrailingFailures(w.settled + [false]) == c.threshold)
                  && (n.b.state != Open ==> n.b.state == Closed && n.b.epoch == w.b.epoch))
            && (a.epoch == w.b.epoch && w.b.state == HalfOpen ==>
                  n.b.state == match outcome case Success => Closed case Failure => Open case NotCounted => HalfOpen)
  {
    RunOk(c, trace);
    var w := Run(c, Start, trace);
    assert (w.settled + [false])[..|w.settled + [false]| - 1] == w.settled;
  }

  /** The transitions a run makes: the new state of every step that changes it. */
  function Transitions(c: Config, trace: seq<Event>): seq<State> {
    if trace == [] then []
    else
      var before := Run(c, Start, trace[..|trace| - 1]).b.state;
      var after := Run(c, Start, trace).b.state;
      Transitions(c, trace[..|trace| - 1]) + (if after != before then [after] else [])
  }

  /** Each step reports the state it changes to, and nothing else. */
  lemma StepReports(c: Config, w: World, e: Event)
    requires ProbeOk(w)
    ensures var n := Step(c, w, e);
            n.emitted + n.b.pending == w.emitted + w.b.pending + (if n.b.state != w.b.state then [n.b.state] else [])
  {
    var n := Step(c, w, e);
    if e.Notify? {
      assert n.emitted + n.b.pending == w.emitted + w.b.pending;
    } else {
      assert n.emitted == w.emitted
          && n.b.pending == w.b.pending + (if n.b.state != w.b.state then [n.b.state] else []) by {
        StepPends(c, w, e);
      }
      hide Step;
    }
  }

  lemma StepPends(c: Config, w: World, e: Event)
    requires ProbeOk(w) && !e.Notify?
    ensures var n := Step(c, w, e);
            && n.emitted == w.emitted
            && n.b.pending == (if n.b.state != w.b.state then w.b.pending + [n.b.state] else w.b.pending)
  {
  }

  /** What observers are told, followed by what is still pending, is exactly the sequence
      of transitions the run made, and each of them is a legal one. */
  lemma {:induction false} TransitionsReported(c: Config, trace: seq<Event>)
    requires ValidConfig(c)
    ensures var w := Run(c, Start, trace);
            w.emitted + w.b.pending == Transitions(c, trace) && Chain(Closed, Transitions(c, trace), w.b.state)
  {
    RunOk(c, trace);
    if trace != [] {
      var before := trace[..|trace| - 1];
      TransitionsReported(c, before);
      RunOk(c, before);
      StepReports(c, Run(c, Start, before), trace[|trace| - 1]);
      hide Step;
    }
  }

  /** A start of a probe is recorded exactly while the breaker is half open. */
  lemma ProbeStartRecorded(c: Config, trace: seq<Event>)
    requires ValidConfig(c)
    ensures var b := Run(c, Start, trace).b;
            && (b.probeStarted.Some? <==> b.state == HalfOpen)
            && ((!b.probing ==> b.probeStarted.None?) <==> !(b.state == HalfOpen && !b.probing))
  {
    RunOk(c, trace);
  }

  /** So a free slot can carry the start of its last probe: the probe begun at 10 is
      released, uncounted, at 11. */
  lemma ReleasedProbeKeepsItsStart()
    ensures var b := Run(OneFailure, Start, ProbeAtTen() + [Finish(Admission(HalfOpen, 2), NotCounted, 11.0)]).b;
            b.state == HalfOpen && !b.probing && b.probeStarted == Some(10.0)
  {
    ProbeAtTenRun();
    FreesAtEleven();
    hide Step;
    RunSnoc(OneFailure, Start, ProbeAtTen(), Finish(Admission(HalfOpen, 2), NotCounted, 11.0));
  }

  // ----- Cool-down -----

  predicate BeforeDeadline(e: Event, deadline: real) {
    match e
    case Begin(now, _) => now < deadline
    case ResetBreaker => false
    case _ => true
  }

  predicate StillOpen(w: World, n: World) {
    n.b.state == Open && n.b.epoch == w.b.epoch && n.b.lastFailure == w.b.lastFailure && n.calls <= w.calls
  }

  lemma CoolDownStep(c: Config, w: World, e: Event)
    requires ProbeOk(w) && TimesOk(w) && w.b.state == Open
    requires BeforeDeadline(e, w.b.lastFailure.value + c.timeout)
    ensures StillOpen(w, Step(c, w, e))
  {
  }

  /** Once open, the breaker sends no call to the backend until the cool-down is over,
      whatever late outcomes arrive, unless it is reset. */
  lemma {:induction false} CoolDown(c: Config, w: World, more: seq<Event>)
    requires ValidConfig(c) && Ok(c, w) && w.b.state == Open
    requires forall i :: 0 <= i < |more| ==> BeforeDeadline(more[i], w.b.lastFailure.value + c.timeout)
    ensures StillOpen(w, Run(c, w, more)) && Ok(c, Run(c, w, more))
  {
    hide Step, ProbeOk, CountOk, LogOk;
    if more != [] {
      CoolDown(c, w, more[..|more| - 1]);
      StepKeeps(c, Run(c, w, more[..|more| - 1]), more[|more| - 1]);
      CoolDownStep(c, Run(c, w, more[..|more| - 1]), more[|more| - 1]);
    }
  }

  // ----- Progress -----

  predicate Admitted(c: Config, w: World, now: real, later: real) {
    AllowCall(c, w.b, now, later).1.state != Open
  }

  /** A call that finds a probe in flight that is not overdue. */
  predicate YoungProbe(c: Config, w: World, now: real) {
    w.b.state == HalfOpen && w.b.probing && w.b.probeStarted.Some? && now - w.b.probeStarted.value < c.timeout
  }

  /** Two successive calls a reset timeout apart, with nothing in between: one of them
      is admitted if and only if the first does not find a young probe.  A young probe
      costs both calls, since the second only declares it hung. */
  lemma TwoCalls(c: Config, trace: seq<Event>, t1: real, u1: real, t2: real, u2: real)
    requires ValidConfig(c) && c.timeout > 0.0
    requires Run(c, Start, trace).clock <= t1 <= u1 && u1 + c.timeout <= t2 <= u2
    ensures var w := Run(c, Start, trace);
            (Admitted(c, w, t1, u1) || Admitted(c, Step(c, w, Begin(t1, u1)), t2, u2)) <==> !YoungProbe(c, w, t1)
  {
    RunOk(c, trace);
  }

  /** The breaker never wedges: of three successive calls a reset timeout apart, with
      nothing in between, one is admitted, from any reachable state. */
  lemma NeverWedges(c: Config, trace: seq<Event>, t1: real, u1: real, t2: real, u2: real, t3: real, u3: real)
    requires ValidConfig(c) && c.timeout > 0.0
    requires Run(c, Start, trace).clock <= t1 <= u1 && u1 + c.timeout <= t2 <= u2 && u2 + c.timeout <= t3 <= u3
    ensures var w := Run(c, Start, trace);
            var w1 := Step(c, w, Begin(t1, u1));
            var w2 := Step(c, w1, Begin(t2, u2));
            Admitted(c, w, t1, u1) || Admitted(c, w1, t2, u2) || Admitted(c, w2, t3, u3)
  {
    RunOk(c, trace);
  }

  function ProbeAtTen(): seq<Event> {
    [Begin(0.0, 0.0), Finish(Admission(Closed, 0), Failure, 0.0), Begin(10.0, 10.0)]
  }

  const OneFailure := Config(1, 10.0)

  // The worlds after each event of ProbeAtTen, and after the probe is released.

  const Calling := World(Initial, multiset{Admission(Closed, 0)}, 0.0, [], [])
  const Tripped := World(Fields(Open, 1, Some(0.0), 1, false, None, [Open]), multiset{}, 0.0, [], [])
  const Probing := World(Fields(HalfOpen, 1, Some(0.0), 2, true, Some(10.0), [Open, HalfOpen]),
                         multiset{Admission(HalfOpen, 2)}, 10.0, [], [])
  const Freed := World(Fields(HalfOpen, 1, Some(0.0), 2, false, Some(10.0), [Open, HalfOpen]), multiset{}, 11.0, [], [])

  lemma TripsAtZero()
    ensures Step(OneFailure, Calling, ProbeAtTen()[1]) == Tripped
  {
    assert Calling.calls - multiset{Admission(Closed, 0)} == multiset{};
  }

  lemma ProbesAtTen()
    ensures Step(OneFailure, Tripped, ProbeAtTen()[2]) == Probing
  {
  }

  lemma FreesAtEleven()
    ensures Step(OneFailure, Probing, Finish(Admission(HalfOpen, 2), NotCounted, 11.0)) == Freed
  {
    assert Probing.calls - multiset{Admission(HalfOpen, 2)} == multiset{};
  }

  lemma ProbeAtTenRun()
    ensures Run(OneFailure, Start, ProbeAtTen()) == Probing
  {
    var e1, e2, e3 := ProbeAtTen()[0], ProbeAtTen()[1], ProbeAtTen()[2];
    assert Step(OneFailure, Start, e1) == Calling;
    hide Step;
    TripsAtZero();
    ProbesAtTen();
    RunSnoc(OneFailure, Start, [], e1);
    RunSnoc(OneFailure, Start, [e1], e2);
    RunSnoc(OneFailure, Start, [e1, e2], e3);
    assert [] + [e1] == [e1] && [e1] + [e2] == [e1, e2] && [e1, e2] + [e3] == ProbeAtTen();
  }

  /** A concrete run in which two calls a reset timeout apart are both rejected: the
      probe starts at 10, the calls come at 15 and 25. */
  lemma YoungProbeCostsTwoCalls()
    ensures var w := Run(OneFailure, Start, ProbeAtTen());
            !Admitted(OneFailure, w, 15.0, 15.0)
                && !Admitted(OneFailure, Step(OneFailure, w, Begin(15.0, 15.0)), 25.0, 25.0)
  {
    ProbeAtTenRun();
    hide Run;
  }

  lemma RunSnoc(c: Config, w: World, trace: seq<Event>, e: Event)
    ensures Run(c, w, trace + [e]) == Step(c, Run(c, w, trace), e)
  {
    hide Step;
    assert (trace + [e])[..|trace + [e]| - 1] == trace;
  }
}
