/** The breaker's deadlines and epochs, told from the events of a run: when it reopens, when
    a probe is overdue, and which outcomes still count. */
module BreakerTimes {
  import opened Options
  import opened Breaker

  // ----- Which outcomes count -----

  /** The event at `k` resets the breaker or changes its state. */
  predicate Turns(c: Config, trace: seq<Event>, k: nat)
    requires k < |trace|
  {
    trace[k] == ResetBreaker || Run(c, Start, trace[..k]).b.state != Run(c, Start, trace[..k + 1]).b.state
  }

  predicate EpochMoves(w: World, n: World, e: Event) {
    n.b.epoch >= w.b.epoch && (n.b.epoch == w.b.epoch <==> e != ResetBreaker && n.b.state == w.b.state)
  }

  lemma BeginEpoch(c: Config, w: World, now: real, later: real)
    ensures EpochMoves(w, Step(c, w, Begin(now, later)), Begin(now, later))
  {
  }

  lemma FinishEpoch(c: Config, w: World, a: Admission, outcome: Outcome, now: real)
    requires ProbeOk(w)
    ensures EpochMoves(w, Step(c, w, Finish(a, outcome, now)), Finish(a, outcome, now))
  {
  }

  lemma EpochStep(c: Config, w: World, e: Event)
    requires ProbeOk(w)
    ensures EpochMoves(w, Step(c, w, e), e)
  {
    match e
    case Begin(now, later) => BeginEpoch(c, w, now, later);
    case Finish(a, outcome, now) => FinishEpoch(c, w, a, outcome, now);
    case ResetBreaker =>
    case Notify =>
  }

  lemma RunAt(c: Config, trace: seq<Event>, k: nat)
    requires k < |trace|
    ensures Run(c, Start, trace[..k + 1]) == Step(c, Run(c, Start, trace[..k]), trace[k])
  {
    hide Step;
    assert trace[..k + 1][..k] == trace[..k];
  }

  lemma {:induction false} EpochTells(c: Config, trace: seq<Event>, i: nat, j: nat)
    requires ValidConfig(c) && i <= j <= |trace|
    ensures var b, n := Run(c, Start, trace[..i]).b, Run(c, Start, trace[..j]).b;
            && n.epoch >= b.epoch
            && (n.epoch == b.epoch <==> forall k :: i <= k < j ==> !Turns(c, trace, k))
            && (n.epoch == b.epoch ==> n.state == b.state)
  {
    hide Step, Run;
    if i < j {
      EpochTells(c, trace, i, j - 1);
      RunOk(c, trace[..j - 1]);
      RunAt(c, trace, j - 1);
      EpochStep(c, Run(c, Start, trace[..j - 1]), trace[j - 1]);
      assert Turns(c, trace, j - 1) <==>
        Run(c, Start, trace[..j]).b.epoch != Run(c, Start, trace[..j - 1]).b.epoch;
    }
  }

  /** The call that the event at `i` admits. */
  predicate Admits(c: Config, trace: seq<Event>, i: nat, a: Admission)
    requires i < |trace|
  {
    && trace[i].Begin? && Run(c, Start, trace[..i]).clock <= trace[i].now <= trace[i].later
    && a == AllowCall(c, Run(c, Start, trace[..i]).b, trace[i].now, trace[i].later).1 && a.state != Open
  }

  lemma AdmittedNow(c: Config, w: World, now: real, later: real)
    requires w.clock <= now <= later
    ensures var a := AllowCall(c, w.b, now, later).1;
            var n := Step(c, w, Begin(now, later));
            && (a.state != Open ==> a.epoch == n.b.epoch && a.state == n.b.state && n.calls == w.calls + multiset{a})
            && (a.state == Open ==> n.calls == w.calls)
  {
  }

  /** What an outcome that counts does. */
  predicate Counts(c: Config, b: Fields, n: Fields, a: Admission, outcome: Outcome) {
    && a.state == b.state
    && match (a.state, outcome)
       case (HalfOpen, Success) => n.state == Closed && n.failures == 0
       case (HalfOpen, Failure) => n.state == Open
       case (HalfOpen, NotCounted) => n == b.(probing := false)
       case (_, Success) => n.state == Closed && n.failures == 0
       case (_, Failure) =>
         if b.failures + 1 >= c.threshold then n.state == Open
         else n.state == Closed && n.failures == b.failures + 1
       case (_, NotCounted) => n == b
  }

  lemma OutcomeStep(c: Config, w: World, a: Admission, outcome: Outcome, now: real)
    requires ValidConfig(c) && Ok(c, w) && a in w.calls && w.clock <= now
    ensures var n := Step(c, w, Finish(a, outcome, now));
            if a.epoch == w.b.epoch then Counts(c, w.b, n.b, a, outcome) else n.b == w.b
  {
  }

  /** Exactly which outcomes count.  A call that was admitted at `i` and comes back after
      `j` events counts if and only if in between the breaker was not reset and did not
      change state; if it does not, its outcome changes nothing at all. */
  lemma OutcomeCountsIff(c: Config, trace: seq<Event>, i: nat, j: nat, a: Admission, outcome: Outcome, now: real)
    requires ValidConfig(c) && i < j <= |trace| && Admits(c, trace, i, a)
    requires a in Run(c, Start, trace[..j]).calls && Run(c, Start, trace[..j]).clock <= now
    ensures var w := Run(c, Start, trace[..j]);
            var n := Step(c, w, Finish(a, outcome, now));
            if exists k :: i < k < j && Turns(c, trace, k) then n.b == w.b else Counts(c, w.b, n.b, a, outcome)
  {
    hide Step, Run, Counts, Turns, Ok;
    RunOk(c, trace[..j]);
    RunAt(c, trace, i);
    AdmittedNow(c, Run(c, Start, trace[..i]), trace[i].now, trace[i].later);
    EpochTells(c, trace, i + 1, j);
    OutcomeStep(c, Run(c, Start, trace[..j]), a, outcome, now);
  }

  // ----- The cool-down, from the event that opens the breaker -----

  /** The time the event gives to the opening: that of the failure, or of the second clock
      reading of the call that declares a probe hung. */
  function OpenedAt(e: Event): real {
    match e
    case Begin(_, later) => later
    case Finish(_, _, now) => now
    case _ => 0.0
  }

  lemma OpeningIsRecorded(c: Config, w: World, e: Event)
    requires w.b.state != Open && Step(c, w, e).b.state == Open
    ensures var n := Step(c, w, e);
            && n.b.lastFailure == Some(OpenedAt(e)) && n.calls <= w.calls
            && (e.Begin? || (e.Finish? && e.outcome == Failure))
  {
  }

  lemma ReopensIff(c: Config, w: World, now: real, later: real)
    requires TimesOk(w) && w.b.state == Open && w.clock <= now <= later
    ensures Admitted(c, w, now, later) <==> now >= w.b.lastFailure.value + c.timeout
    ensures Admitted(c, w, now, later) ==> Step(c, w, Begin(now, later)).b.state == HalfOpen
    ensures !Admitted(c, w, now, later) ==> Step(c, w, Begin(now, later)).b == w.b
  {
  }

  /** The cool-down, exactly.  An event opens the breaker: a failure that trips it, the
      failure of a probe, or a call that finds a probe overdue.  Then no call gets through
      before that event's own time plus the timeout, whatever comes back late and short of a
      reset, and the first call from then on is the next probe. */
  lemma CoolDownExactly(c: Config, trace: seq<Event>, e: Event, more: seq<Event>, now: real, later: real)
    requires ValidConfig(c)
    requires Run(c, Start, trace).b.state != Open && Step(c, Run(c, Start, trace), e).b.state == Open
    requires forall i :: 0 <= i < |more| ==> BeforeDeadline(more[i], OpenedAt(e) + c.timeout)
    requires Run(c, Step(c, Run(c, Start, trace), e), more).clock <= now <= later
    ensures var m := Run(c, Step(c, Run(c, Start, trace), e), more);
            && m.b.state == Open && m.calls <= Run(c, Start, trace).calls
            && (Admitted(c, m, now, later) <==> now >= OpenedAt(e) + c.timeout)
            && (Admitted(c, m, now, later) ==> Step(c, m, Begin(now, later)).b.state == HalfOpen)
  {
    hide Step, Admitted, ProbeOk, CountOk, LogOk;
    var w := Run(c, Start, trace);
    RunOk(c, trace);
    StepKeeps(c, w, e);
    OpeningIsRecorded(c, w, e);
    CoolDown(c, Step(c, w, e), more);
    ReopensIff(c, Run(c, Step(c, w, e), more), now, later);
  }

  // ----- A probe, from the event that begins it -----

  /** The probe has not come back, no reset, and no call as late as the deadline. */
  predicate DuringProbe(e: Event, a: Admission, deadline: real) {
    match e
    case Begin(now, _) => now < deadline
    case Finish(b, _, _) => b != a
    case ResetBreaker => false
    case Notify => true
  }

  predicate Probes(w: World, epoch: nat, started: real) {
    w.b.state == HalfOpen && w.b.epoch == epoch && w.b.probing && w.b.probeStarted == Some(started)
  }

  lemma ProbeBegins(c: Config, w: World, now: real, later: real)
    requires w.clock <= now <= later
    requires AllowCall(c, w.b, now, later).1.state == HalfOpen
    ensures var n := Step(c, w, Begin(now, later));
            Probes(n, n.b.epoch, now) && AllowCall(c, w.b, now, later).1 == Admission(HalfOpen, n.b.epoch)
  {
  }

  lemma ProbeStep(c: Config, w: World, e: Event, epoch: nat, started: real)
    requires ProbeOk(w) && Probes(w, epoch, started)
    requires DuringProbe(e, Admission(HalfOpen, epoch), started + c.timeout)
    ensures Probes(Step(c, w, e), epoch, started) && Step(c, w, e).calls <= w.calls
  {
  }

  lemma {:induction false} ProbeHolds(c: Config, w: World, more: seq<Event>, epoch: nat, started: real)
    requires ValidConfig(c) && Ok(c, w) && Probes(w, epoch, started)
    requires forall i :: 0 <= i < |more| ==> DuringProbe(more[i], Admission(HalfOpen, epoch), started + c.timeout)
    ensures Ok(c, Run(c, w, more)) && Probes(Run(c, w, more), epoch, started) && Run(c, w, more).calls <= w.calls
  {
    hide Step, ProbeOk, CountOk, LogOk, TimesOk, Probes, DuringProbe;
    if more != [] {
      var less := more[..|more| - 1];
      ProbeHolds(c, w, less, epoch, started);
      StepKeeps(c, Run(c, w, less), more[|more| - 1]);
      ProbeStep(c, Run(c, w, less), more[|more| - 1], epoch, started);
    }
  }

  lemma OverdueIff(c: Config, w: World, epoch: nat, started: real, now: real, later: real)
    requires ValidConfig(c) && Probes(w, epoch, started) && w.clock <= now <= later
    ensures !Admitted(c, w, now, later)
    ensures Step(c, w, Begin(now, later)).b.state == Open <==> c.timeout > 0.0 && now >= started + c.timeout
    ensures Step(c, w, Begin(now, later)).b.state in {Open, HalfOpen}
  {
  }

  /** A probe, exactly.  While it is out no other call gets through; the first call that
      comes a timeout or more after the call that began it, and no earlier one, declares it
      hung and opens the breaker. */
  lemma ProbeExactly(c: Config, trace: seq<Event>, t: real, u: real, more: seq<Event>, now: real, later: real)
    requires ValidConfig(c) && Run(c, Start, trace).clock <= t <= u
    requires AllowCall(c, Run(c, Start, trace).b, t, u).1.state == HalfOpen
    requires forall i :: 0 <= i < |more| ==>
               DuringProbe(more[i], AllowCall(c, Run(c, Start, trace).b, t, u).1, t + c.timeout)
    requires Run(c, Step(c, Run(c, Start, trace), Begin(t, u)), more).clock <= now <= later
    ensures var m := Run(c, Step(c, Run(c, Start, trace), Begin(t, u)), more);
            && m.calls <= Step(c, Run(c, Start, trace), Begin(t, u)).calls
            && !Admitted(c, m, now, later)
            && (Step(c, m, Begin(now, later)).b.state == Open <==> c.timeout > 0.0 && now >= t + c.timeout)
  {
    hide Step, Admitted, Ok, DuringProbe, Probes, AllowCall;
    var w := Run(c, Start, trace);
    RunOk(c, trace);
    StepKeeps(c, w, Begin(t, u));
    ProbeBegins(c, w, t, u);
    var n := Step(c, w, Begin(t, u));
    ProbeHolds(c, n, more, n.b.epoch, t);
    OverdueIff(c, Run(c, n, more), n.b.epoch, t, now, later);
  }

  /** Exactly which calls get through: all while closed, none while open before the last
      failure's deadline, and while half open one at a time. */
  lemma AdmitsExactly(c: Config, trace: seq<Event>, now: real, later: real)
    requires ValidConfig(c) && Run(c, Start, trace).clock <= now <= later
    ensures var w := Run(c, Start, trace);
            Admitted(c, w, now, later) <==>
              match w.b.state
              case Closed => true
              case Open => w.b.lastFailure.Some? && now >= w.b.lastFailure.value + c.timeout
              case HalfOpen => w.calls[Admission(HalfOpen, w.b.epoch)] == 0
  {
    RunOk(c, trace);
  }

  /** How a step moves the failure count and the time of the last failure: a failure that
      counts adds one and is the last, or starts from zero if it is a probe's; a probe
      declared hung starts from zero and is the last; a success that counts and a reset clear
      both; nothing else touches them. */
  lemma CountAndTimeStep(c: Config, w: World, e: Event)
    requires ProbeOk(w)
    ensures var n := Step(c, w, e).b;
            var counts := e.Finish? && w.clock <= e.now && e.call in w.calls && e.call.epoch == w.b.epoch;
            (n.failures, n.lastFailure)
            == if e.ResetBreaker? || (counts && e.outcome == Success) then (0, None)
               else if counts && e.outcome == Failure
               then (if w.b.state == HalfOpen then 0 else w.b.failures + 1, Some(e.now))
               else if e.Begin? && w.b.state == HalfOpen && n.state == Open then (0, Some(e.later))
               else (w.b.failures, w.b.lastFailure)
  {
  }
}
