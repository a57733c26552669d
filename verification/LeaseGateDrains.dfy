/** When a drain of the generation lease gate wakes up and gets through
    (src/scrapy_extension/backends/_generation.py). */
module LeaseGateDrains {
  import opened Options
  import opened LeaseGate

  lemma NoOthers(r: Record, t: Thread)
    requires forall u :: u in r.threads ==> r.threads[u] > 0
    ensures Others(r, t) == 0 <==> forall u :: u in r.threads ==> u == t
  {
    if u :| u in r.threads && u != t {
      TotalPick(r.threads - {t}, u);
    } else {
      assert r.threads - {t} == map[];
    }
  }

  lemma DrainInRange(w: World, t: Thread)
    requires Ok(w) && t in w.draining
    ensures Shaped(w) && w.draining[t].record < |w.g.records|
  {
    hide RecordOk, DrainOk;
  }

  lemma LeavesIff(w: World, e: Event, t: Thread)
    requires Shaped(w) && t in w.draining && w.draining[t].record < |w.g.records|
    ensures t !in Step(w, e).draining <==> e == Look(t) && t in w.woken && PastWait(w, t)
    ensures t in Step(w, e).draining ==> Step(w, e).draining[t] == w.draining[t]
  {
    hide Registered, RunNow, Flushed, Returned, Taken;
  }

  lemma DrainedRecord(w: World, t: Thread)
    requires Ok(w) && t in w.draining
    ensures var r := w.g.records[w.draining[t].record];
            && !r.accepting && r.active == Total(r.threads) && (forall u :: u in r.threads ==> r.threads[u] > 0)
            && w.draining[t].owned == Held(r, t) && r.active == w.draining[t].owned + Others(r, t)
            && (PastWait(w, t) <==> Others(r, t) == 0)
            && (PastWait(w, t) <==> forall u :: u in r.threads ==> u == t)
  {
    var i := w.draining[t].record;
    var r := w.g.records[i];
    assert RecordOk(r, w.queued[i], w.ran[i]);
    assert DrainOk(r, t, w.draining[t], t in w.woken);
    OthersSplit(r, t);
    NoOthers(r, t);
  }

  /** A thread leaves its wait in exactly one kind of step: a look, after it has been
      woken, while no other thread holds a lease on the record. */
  lemma LeavesExactly(trace: seq<Event>, e: Event, t: Thread)
    requires t in Run(Start, trace).draining
    ensures var w := Run(Start, trace);
            && w.draining[t].record < |w.g.records|
            && (t !in Step(w, e).draining <==>
                  e == Look(t) && t in w.woken && Others(w.g.records[w.draining[t].record], t) == 0)
            && (t in Step(w, e).draining ==> Step(w, e).draining[t] == w.draining[t])
  {
    hide Run, Step, Ok, PastWait, Others;
    RunOk(trace);
    DrainInRange(Run(Start, trace), t);
    LeavesIff(Run(Start, trace), e, t);
    DrainedRecord(Run(Start, trace), t);
  }

  lemma EntersIff(w: World, e: Event, t: Thread)
    requires Shaped(w) && t !in w.draining
    ensures t in Step(w, e).draining <==>
              && e.DrainEnter? && e.t == t && e.record < |w.g.records| && !w.g.records[e.record].accepting
              && Held(w.g.records[e.record], t) < w.g.records[e.record].active
    ensures t in Step(w, e).draining ==>
              && Step(w, e).draining[t] == Drain(e.record, Held(w.g.records[e.record], t), e.finalizer)
              && t !in Step(w, e).woken
  {
    hide Registered, RunNow, Flushed, Returned, Taken, Held;
  }

  /** Exactly when a thread goes to sleep: when it begins to drain a retired record on which
      another thread holds a lease. */
  lemma EntersExactly(trace: seq<Event>, e: Event, t: Thread)
    requires t !in Run(Start, trace).draining
    ensures var w := Run(Start, trace);
            && (t in Step(w, e).draining <==>
                  && e.DrainEnter? && e.t == t && e.record < |w.g.records| && !w.g.records[e.record].accepting
                  && Others(w.g.records[e.record], t) > 0)
            && (t in Step(w, e).draining ==>
                  && Step(w, e).draining[t].record == e.record && Step(w, e).draining[t].finalizer == e.finalizer
                  && t !in Step(w, e).woken)
  {
    hide Run, Step, Ok, Others, Held;
    RunOk(trace);
    var w := Run(Start, trace);
    EntersIff(w, e, t);
    if e.DrainEnter? && e.record < |w.g.records| {
      ActiveIsTotal(w, e.record);
      OthersSplit(w.g.records[e.record], t);
    }
  }

  lemma ActiveIsTotal(w: World, i: nat)
    requires Ok(w) && i < |w.g.records|
    ensures w.g.records[i].active == Total(w.g.records[i].threads)
  {
    assert RecordOk(w.g.records[i], w.queued[i], w.ran[i]);
  }

  // ----- Notification -----

  /** The step wakes the sleepers for a reason that lies outside record `i`: a new
      generation is published, the current one retired, thread `t` interrupted, or the
      last lease of another record returned. */
  predicate WakesFromOutside(w: World, e: Event, i: nat, t: Thread) {
    match e
    case DoPublish => w.g.current.None? || w.g.current.value >= |w.g.records|
        || !w.g.records[w.g.current.value].accepting
    case DoRetire => w.g.current.Some?
    case Interrupt(u) => u == t
    case DoRelease(u, j) => j != i && IsRelease(w, e, j) && w.g.records[j].active <= 1
    case _ => false
  }

  predicate Sleeps(w: World, t: Thread, i: nat) {
    t in w.draining && t !in w.woken && w.draining[t].record == i
  }

  lemma HoldsOn(w: World, e: Event, t: Thread, i: nat)
    requires Ok(w) && Sleeps(w, t, i) && w.draining[t].owned > 0 && !WakesFromOutside(w, e, i, t)
    ensures Sleeps(Step(w, e), t, i) && Step(w, e).draining[t] == w.draining[t]
  {
    var r := w.g.records[i];
    assert RecordOk(r, w.queued[i], w.ran[i]) && DrainOk(r, t, w.draining[t], false);
    if IsRelease(w, e, i) {
      OthersSplit(r, t);
      ReturnedKeeps(r, e.t, w.queued[i], w.ran[i]);
      OthersSplit(Returned(r, e.t), t);
    }
    hide Returned, Registered, RunNow, Flushed, Others, Total, Ok;
  }

  ghost predicate Undisturbed(w: World, more: seq<Event>, i: nat, t: Thread)
    requires Shaped(w)
  {
    forall k :: 0 <= k < |more| ==> !WakesFromOutside(Run(w, more[..k]), more[k], i, t)
  }

  lemma UndisturbedPrefix(w: World, more: seq<Event>, i: nat, t: Thread)
    requires Shaped(w) && more != [] && Undisturbed(w, more, i, t)
    ensures Undisturbed(w, more[..|more| - 1], i, t)
    ensures !WakesFromOutside(Run(w, more[..|more| - 1]), more[|more| - 1], i, t)
  {
    var less := more[..|more| - 1];
    forall k | 0 <= k < |less| ensures !WakesFromOutside(Run(w, less[..k]), less[k], i, t) {
      assert less[..k] == more[..k] && less[k] == more[k];
      assert !WakesFromOutside(Run(w, more[..k]), more[k], i, t);
    }
  }

  /** A drain that found leases of its own sleeps on, whatever is returned. */
  lemma {:induction false} OwnLeaseSleepsOn(w: World, more: seq<Event>, t: Thread, i: nat)
    requires Ok(w) && Sleeps(w, t, i) && w.draining[t].owned > 0 && Undisturbed(w, more, i, t)
    ensures Ok(Run(w, more)) && Sleeps(Run(w, more), t, i) && Run(w, more).draining[t] == w.draining[t]
  {
    assert Shaped(w);
    hide Step, WakesFromOutside, Ok, Sleeps, Undisturbed;
    if more != [] {
      var less := more[..|more| - 1];
      UndisturbedPrefix(w, more, i, t);
      OwnLeaseSleepsOn(w, less, t, i);
      HoldsOn(Run(w, less), more[|more| - 1], t, i);
      StepKeeps(Run(w, less), more[|more| - 1]);
    }
  }

  lemma {:induction false} OkRuns(w: World, more: seq<Event>)
    requires Ok(w)
    ensures Ok(Run(w, more))
  {
    assert Shaped(w);
    hide Step, Ok;
    if more != [] {
      OkRuns(w, more[..|more| - 1]);
      StepKeeps(Run(w, more[..|more| - 1]), more[|more| - 1]);
    }
  }

  /** Notification, exactly.  A thread sleeps in the drain of a record; nothing outside
      the record wakes anybody; all other threads' leases come back.  Then the thread is
      woken, unless it held leases of its own when it began to drain: `lease` notifies
      only when the count is down to zero. */
  lemma WokenByReturnsIff(w: World, more: seq<Event>, t: Thread, i: nat)
    requires Ok(w) && Sleeps(w, t, i) && Undisturbed(w, more, i, t)
    requires i < |Run(w, more).g.records| && forall u :: u in Run(w, more).g.records[i].threads ==> u == t
    ensures Sleeps(Run(w, more), t, i) <==> w.draining[t].owned > 0
  {
    OkRuns(w, more);
    var n := Run(w, more);
    if w.draining[t].owned > 0 {
      OwnLeaseSleepsOn(w, more, t, i);
    } else if Sleeps(n, t, i) {
      DrainedRecord(n, t);
      assert DrainOk(n.g.records[i], t, n.draining[t], false);
      HeldNeverGrows(w, more, t, i);
    }
  }

  lemma {:induction false} HeldNeverGrows(w: World, more: seq<Event>, t: Thread, i: nat)
    requires Ok(w) && i < |w.g.records| && !w.g.records[i].accepting
    ensures var n := Run(w, more);
            Ok(n) && i < |n.g.records| && !n.g.records[i].accepting
                && Held(n.g.records[i], t) <= Held(w.g.records[i], t)
  {
    assert Shaped(w);
    hide Step, Ok, Held;
    if more != [] {
      var less := more[..|more| - 1];
      HeldNeverGrows(w, less, t, i);
      StepKeeps(Run(w, less), more[|more| - 1]);
      RetiredOnlyDrains(Run(w, less), more[|more| - 1], i, t);
    }
  }

  /** The lost wake-up, concretely: thread 0 drains the record from inside its own lease
      while thread 1 holds one; thread 1 returns it, no other lease is held, and thread 0
      sleeps on. */
  function LostWakeupTrace(f: Finalizer): seq<Event> {
    [DoPublish, DoAcquire(0), DoAcquire(1), DoRetire, DrainEnter(0, 0, Some(f)), DoRelease(1, 0)]
  }

  function TwoLeases(accepting: bool): World {
    World(Gate([Record(accepting, 2, map[0 := 1, 1 := 1], [], false)], if accepting then Some(0) else None), map[], {},
          [[]], [[]])
  }

  function Asleep(f: Finalizer): World {
    World(Gate([Record(false, 1, map[0 := 1], [], false)], None), map[0 := Drain(0, 1, Some(f))], {}, [[]], [[]])
  }

  lemma RunSnoc(w: World, trace: seq<Event>, e: Event)
    requires Shaped(w)
    ensures Run(w, trace + [e]) == Step(Run(w, trace), e)
  {
    hide Step;
    assert (trace + [e])[..|trace + [e]| - 1] == trace;
  }

  lemma ReachTwoLeases()
    ensures Run(Start, [DoPublish, DoAcquire(0), DoAcquire(1)]) == TwoLeases(true)
    ensures Run(Start, [DoPublish, DoAcquire(0), DoAcquire(1), DoRetire]) == TwoLeases(false)
  {
    var w1 := World(Gate([NewRecord], Some(0)), map[], {}, [[]], [[]]);
    assert Step(Start, DoPublish) == w1;
    var w2 := World(Gate([Record(true, 1, map[0 := 1], [], false)], Some(0)), map[], {}, [[]], [[]]);
    assert Step(w1, DoAcquire(0)) == w2;
    assert Step(w2, DoAcquire(1)) == TwoLeases(true);
    assert Step(TwoLeases(true), DoRetire) == TwoLeases(false);
    hide Step;
    RunSnoc(Start, [], DoPublish);
    RunSnoc(Start, [DoPublish], DoAcquire(0));
    RunSnoc(Start, [DoPublish, DoAcquire(0)], DoAcquire(1));
    RunSnoc(Start, [DoPublish, DoAcquire(0), DoAcquire(1)], DoRetire);
    assert [] + [DoPublish] == [DoPublish] && [DoPublish] + [DoAcquire(0)] == [DoPublish, DoAcquire(0)];
    assert [DoPublish, DoAcquire(0)] + [DoAcquire(1)] == [DoPublish, DoAcquire(0), DoAcquire(1)];
    assert [DoPublish, DoAcquire(0), DoAcquire(1)] + [DoRetire] == [DoPublish, DoAcquire(0), DoAcquire(1), DoRetire];
  }

  lemma LastOtherReturns(f: Finalizer)
    ensures Step(TwoLeases(false).(draining := map[0 := Drain(0, 1, Some(f))]), DoRelease(1, 0)) == Asleep(f)
  {
    var w := TwoLeases(false).(draining := map[0 := Drain(0, 1, Some(f))]);
    var n := Returned(w.g.records[0], 1);
    assert n == Record(false, 1, map[0 := 1], [], false);
    assert w.queued[0] + Flushed(w.g.records[0]) == w.queued[0];
    assert w.queued[0 := w.queued[0]] == w.queued;
    assert w.g.records[0 := n] == [n];
  }

  lemma LostWakeup(f: Finalizer)
    ensures Run(Start, LostWakeupTrace(f)) == Asleep(f)
    ensures Ok(Asleep(f)) && Sleeps(Asleep(f), 0, 0) && Others(Asleep(f).g.records[0], 0) == 0
    ensures PastWait(Asleep(f), 0)
  {
    ReachTwoLeases();
    var four := [DoPublish, DoAcquire(0), DoAcquire(1), DoRetire];
    var five := four + [DrainEnter(0, 0, Some(f))];
    var w := TwoLeases(false).(draining := map[0 := Drain(0, 1, Some(f))]);
    assert Step(TwoLeases(false), DrainEnter(0, 0, Some(f))) == w;
    LastOtherReturns(f);
    RunOk(LostWakeupTrace(f));
    hide Step;
    RunSnoc(Start, four, DrainEnter(0, 0, Some(f)));
    RunSnoc(Start, five, DoRelease(1, 0));
    assert five + [DoRelease(1, 0)] == LostWakeupTrace(f);
    DrainedRecord(Asleep(f), 0);
  }

  // ----- Progress -----

  lemma {:induction false} RunFirst(w: World, e: Event, rest: seq<Event>)
    requires Shaped(w)
    ensures Run(w, [e] + rest) == Run(Step(w, e), rest)
  {
    hide Step;
    if rest == [] {
      assert [e] + rest == [e] && [e][..0] == [];
    } else {
      var last := |rest| - 1;
      RunFirst(w, e, rest[..last]);
      assert ([e] + rest)[..|[e] + rest| - 1] == [e] + rest[..last];
    }
  }

  /** No thread but `t` that holds a lease on the record it drains is itself draining. */
  predicate OthersFree(w: World, t: Thread)
    requires t in w.draining && w.draining[t].record < |w.g.records|
  {
    forall u :: u in w.g.records[w.draining[t].record].threads && u != t ==> u !in w.draining
  }

  /** The others return their leases one by one, until only the drainer's are left; the
      other threads inside a drain stay there. */
  lemma {:induction false} OthersReturn(w: World, t: Thread) returns (releases: seq<Event>)
    requires Ok(w) && t in w.draining && OthersFree(w, t)
    ensures |releases| == Others(w.g.records[w.draining[t].record], t)
    ensures forall j :: 0 <= j < |releases| ==>
              releases[j].DoRelease? && releases[j].t != t && releases[j].record == w.draining[t].record
    ensures var n := Run(w, releases);
            && Ok(n) && n.draining == w.draining && PastWait(n, t) && w.woken <= n.woken
            && |n.g.records| == |w.g.records|
            && (forall i, u :: 0 <= i < |w.g.records| && u in n.g.records[i].threads ==> u in w.g.records[i].threads)
    decreases Others(w.g.records[w.draining[t].record], t)
  {
    hide Ok, Returned, RetiredChange;
    DrainInRange(w, t);
    var i := w.draining[t].record;
    var r := w.g.records[i];
    DrainedRecord(w, t);
    if u :| u in r.threads && u != t {
      var e := DoRelease(u, i);
      StepKeeps(w, e);
      RetiredOnlyDrains(w, e, i, t);
      var n := Step(w, e);
      ReleaseLeaves(w, u, i);
      var rest := OthersReturn(n, t);
      releases := [e] + rest;
      RunFirst(w, e, rest);
      hide Step;
    } else {
      releases := [];
    }
  }

  lemma ReleaseLeaves(w: World, u: Thread, i: nat)
    requires Ok(w) && i < |w.g.records| && u in w.g.records[i].threads && u !in w.draining
    ensures var n := Step(w, DoRelease(u, i));
            && n.draining == w.draining && w.woken <= n.woken && |n.g.records| == |w.g.records|
            && (forall j, v :: 0 <= j < |w.g.records| && v in n.g.records[j].threads ==> v in w.g.records[j].threads)
  {
    hide RecordOk, DrainOk, Flushed;
  }

  /** Progress by returns.  When no other holder is inside a drain, a drain by a thread
      without leases of its own gets through as soon as the others have returned theirs:
      the last return wakes it. */
  lemma DrainGetsThrough(w: World, t: Thread) returns (releases: seq<Event>)
    requires Ok(w) && t in w.draining && OthersFree(w, t) && w.draining[t].owned == 0
    ensures |releases| == Others(w.g.records[w.draining[t].record], t)
    ensures forall j :: 0 <= j < |releases| ==>
              releases[j].DoRelease? && releases[j].t != t && releases[j].record == w.draining[t].record
    ensures t !in Run(w, releases + [Look(t)]).draining
  {
    releases := OthersReturn(w, t);
    var n := Run(w, releases);
    DrainedRecord(n, t);
    assert DrainOk(n.g.records[n.draining[t].record], t, n.draining[t], t in n.woken);
    RunSnoc(w, releases, Look(t));
  }

  // ----- Drains that never leave -----

  /** Thread `t` waits for a lease that another thread of the set holds. */
  predicate Blocked(w: World, t: Thread, s: set<Thread>)
    requires t in w.draining
  {
    && w.draining[t].record < |w.g.records|
    && exists u :: u in s && u != t && u in w.g.records[w.draining[t].record].threads
  }

  /** So do all threads of the set. */
  predicate Dead(w: World, s: set<Thread>) {
    s <= w.draining.Keys && forall t :: t in s ==> Blocked(w, t, s)
  }

  lemma BlockedStep(w: World, e: Event, t: Thread, s: set<Thread>)
    requires Ok(w) && s <= w.draining.Keys && t in s && Blocked(w, t, s)
    ensures var n := Step(w, e); t in n.draining && n.draining[t] == w.draining[t] && Blocked(n, t, s)
  {
    var u :| u in s && u != t && u in w.g.records[w.draining[t].record].threads;
    StaysBlocked(w, e, t, u);
  }

  lemma DeadStep(w: World, e: Event, s: set<Thread>)
    requires Ok(w) && Dead(w, s)
    ensures Dead(Step(w, e), s)
    ensures forall t :: t in s ==> Step(w, e).draining[t] == w.draining[t]
  {
    assert Shaped(w);
    hide Step, Ok, Blocked;
    forall t | t in s
      ensures t in Step(w, e).draining && Step(w, e).draining[t] == w.draining[t] && Blocked(Step(w, e), t, s)
    {
      BlockedStep(w, e, t, s);
    }
  }

  lemma StaysBlocked(w: World, e: Event, t: Thread, u: Thread)
    requires Ok(w) && t in w.draining && u in w.draining && u != t
    requires u in w.g.records[w.draining[t].record].threads
    ensures var n := Step(w, e);
            && t in n.draining && n.draining[t] == w.draining[t] && w.draining[t].record < |n.g.records|
            && u in n.g.records[w.draining[t].record].threads
  {
    hide Step, Ok, IsRelease, PastWait, Registered, RunNow, Flushed, Others;
    DrainedRecord(w, t);
    DrainInRange(w, t);
    LeavesIff(w, e, t);
    RetiredStep(w, e, w.draining[t].record);
    DrainingKeeps(w, e, w.draining[t].record, u);
  }

  lemma DrainingKeeps(w: World, e: Event, i: nat, u: Thread)
    requires u in w.draining
    ensures IsRelease(w, e, i) ==> e.t != u
  {
  }

  /** Threads that wait for one another never leave, whatever else happens, wake-ups and
      interrupts included. */
  lemma {:induction false} DeadForever(w: World, more: seq<Event>, s: set<Thread>)
    requires Ok(w) && Dead(w, s)
    ensures Ok(Run(w, more)) && Dead(Run(w, more), s)
    ensures forall t :: t in s ==> Run(w, more).draining[t] == w.draining[t]
  {
    assert Shaped(w);
    hide Step, Ok, Dead;
    if more != [] {
      var less := more[..|more| - 1];
      DeadForever(w, less, s);
      StepKeeps(Run(w, less), more[|more| - 1]);
      DeadStep(Run(w, less), more[|more| - 1], s);
    }
  }

  /** Publishing or retiring, whichever is possible, wakes everybody. */
  function Nudge(w: World): Event {
    if w.g.current.Some? then DoRetire else DoPublish
  }

  lemma NudgeNotifies(w: World)
    requires Ok(w)
    ensures var n := Step(w, Nudge(w));
            && n.draining == w.draining && n.woken == w.draining.Keys && |n.g.records| >= |w.g.records|
            && (forall i :: 0 <= i < |w.g.records| ==>
                  n.g.records[i].threads == w.g.records[i].threads && n.g.records[i].active == w.g.records[i].active)
  {
    hide RecordOk, DrainOk;
  }

  lemma LookLeaves(w: World, t: Thread)
    requires Ok(w) && t in w.draining && t in w.woken && PastWait(w, t)
    ensures var n := Step(w, Look(t));
            && n.draining == w.draining - {t} && |n.g.records| == |w.g.records|
            && (forall i :: 0 <= i < |w.g.records| ==> n.g.records[i].threads == w.g.records[i].threads)
  {
    hide RecordOk, DrainOk, RunNow;
  }

  lemma NudgeWakes(w: World, t: Thread)
    requires Ok(w) && t in w.draining && PastWait(w, t)
    ensures var n := Step(Step(w, Nudge(w)), Look(t));
            && Ok(n) && n.draining == w.draining - {t} && |n.g.records| >= |w.g.records|
            && (forall i, u :: 0 <= i < |w.g.records| && u in n.g.records[i].threads ==> u in w.g.records[i].threads)
  {
    assert Shaped(w);
    hide Step, Ok, Nudge;
    var m := Step(w, Nudge(w));
    StepKeeps(w, Nudge(w));
    NudgeNotifies(w);
    StepKeeps(m, Look(t));
    LookLeaves(m, t);
  }

  lemma DeadBefore(w: World, n: World, s: set<Thread>)
    requires Ok(w) && Dead(n, s) && |n.g.records| >= |w.g.records|
    requires forall t :: t in n.draining ==> t in w.draining && n.draining[t] == w.draining[t]
    requires forall i, u :: 0 <= i < |w.g.records| && u in n.g.records[i].threads ==> u in w.g.records[i].threads
    ensures Dead(w, s)
  {
    hide RecordOk, DrainOk;
    forall t | t in s ensures exists u :: u in s && u != t && u in w.g.records[w.draining[t].record].threads {
      var u :| u in s && u != t && u in n.g.records[n.draining[t].record].threads;
      assert u in w.g.records[w.draining[t].record].threads;
    }
  }

  lemma {:induction false} RunAppend(w: World, first: seq<Event>, second: seq<Event>)
    requires Shaped(w)
    ensures Run(w, first + second) == Run(Run(w, first), second)
  {
    hide Step;
    if second == [] {
      assert first + second == first;
    } else {
      RunAppend(w, first, second[..|second| - 1]);
      assert (first + second)[..|first + second| - 1] == first + second[..|second| - 1];
    }
  }

  /** Some thread's blockers are all outside the drains, unless all wait for each other. */
  lemma SomeoneFree(w: World, t: Thread) returns (u: Thread)
    requires Ok(w) && t in w.draining && forall s :: t in s ==> !Dead(w, s)
    ensures u in w.draining && OthersFree(w, u)
  {
    assert forall v :: v in w.draining ==> w.draining[v].record < |w.g.records|;
    assert !Dead(w, w.draining.Keys);
    u :| u in w.draining && forall v :: v in w.draining.Keys && v != u ==>
        v !in w.g.records[w.draining[u].record].threads;
  }

  /** A drain that is in no such set can leave. */
  lemma {:induction false} EscapesUnlessDead(w: World, t: Thread) returns (more: seq<Event>)
    requires Ok(w) && t in w.draining && forall s :: t in s ==> !Dead(w, s)
    ensures t !in Run(w, more).draining
    decreases |w.draining|
  {
    var u := SomeoneFree(w, t);
    var releases := OthersReturn(w, u);
    var n := Run(w, releases);
    NudgeWakes(n, u);
    var e := Nudge(n);
    var m := Step(Step(n, e), Look(u));
    var out := releases + [e] + [Look(u)];
    RunSnoc(w, releases, e);
    RunSnoc(w, releases + [e], Look(u));
    hide Step, Ok;
    if u == t {
      more := out;
    } else {
      forall s | t in s ensures !Dead(m, s) {
        if Dead(m, s) { DeadBefore(w, m, s); }
      }
      var rest := EscapesUnlessDead(m, t);
      RunAppend(w, out, rest);
      more := out + rest;
    }
  }

  /** A drain can never leave if and only if its thread belongs to a set of draining
      threads each of which waits for a lease that another one of them holds. */
  lemma NeverLeavesIff(w: World, t: Thread)
    requires Ok(w) && t in w.draining
    ensures (forall more :: t in Run(w, more).draining) <==> (exists s :: t in s && Dead(w, s))
  {
    if s :| t in s && Dead(w, s) {
      forall more ensures t in Run(w, more).draining {
        DeadForever(w, more, s);
      }
    } else {
      var more := EscapesUnlessDead(w, t);
      assert t !in Run(w, more).draining;
    }
  }

  lemma BothEnter(f: Finalizer, g: Finalizer)
    ensures var w1 := TwoLeases(false).(draining := map[0 := Drain(0, 1, Some(f))]);
            && Step(TwoLeases(false), DrainEnter(0, 0, Some(f))) == w1
            && Step(w1, DrainEnter(1, 0, Some(g)))
               == w1.(draining := map[0 := Drain(0, 1, Some(f)), 1 := Drain(0, 1, Some(g))])
  {
  }

  /** Such a set is reached: two threads that hold a lease each and both drain. */
  lemma TwoHoldersDeadlock(f: Finalizer, g: Finalizer)
    ensures var trace := [DoPublish, DoAcquire(0), DoAcquire(1), DoRetire, DrainEnter(0, 0, Some(f)),
                          DrainEnter(1, 0, Some(g))];
            Ok(Run(Start, trace)) && Dead(Run(Start, trace), {0, 1})
  {
    hide Run, Ok, Step;
    ReachTwoLeases();
    var four := [DoPublish, DoAcquire(0), DoAcquire(1), DoRetire];
    var trace := four + [DrainEnter(0, 0, Some(f))] + [DrainEnter(1, 0, Some(g))];
    RunSnoc(Start, four, DrainEnter(0, 0, Some(f)));
    RunSnoc(Start, four + [DrainEnter(0, 0, Some(f))], DrainEnter(1, 0, Some(g)));
    RunOk(trace);
    BothEnter(f, g);
    var w := TwoLeases(false).(draining := map[0 := Drain(0, 1, Some(f)), 1 := Drain(0, 1, Some(g))]);
    assert 1 in w.g.records[0].threads && 0 in w.g.records[0].threads;
    assert trace == [DoPublish, DoAcquire(0), DoAcquire(1), DoRetire, DrainEnter(0, 0, Some(f)),
                     DrainEnter(1, 0, Some(g))];
  }
}
