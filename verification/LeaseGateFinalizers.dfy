/** Which finalizer a retired record runs, and which leases it grants, told from the events
    of a run alone. */
module LeaseGateFinalizers {
  import opened Options
  import opened LeaseGate

  /** The finalizer of a drain of record `i` that the event ends: on entry, or at a look of
      an awake thread, no other thread holds a lease any more. */
  function EndedWith(w: World, e: Event, i: nat): Option<Finalizer> {
    if i >= |w.g.records| then None
    else match e
      case DrainEnter(t, j, f) =>
        if j == i && t !in w.draining && !w.g.records[i].accepting && w.g.records[i].active <= Held(w.g.records[i], t)
        then f
        else None
      case Look(t) =>
        if t in w.draining && t in w.woken && w.draining[t].record == i && w.g.records[i].active <= w.draining[t].owned
        then w.draining[t].finalizer
        else None
      case _ => None
  }

  /** The finalizer of the first drain of record `i` that ended with one. */
  function FirstFinalizer(trace: seq<Event>, i: nat): Option<Finalizer> {
    if trace == [] then None
    else
      var before := FirstFinalizer(trace[..|trace| - 1], i);
      if before.Some? then before else EndedWith(Run(Start, trace[..|trace| - 1]), trace[|trace| - 1], i)
  }

  /** What has become of the finalizers of record `i`: run, handed out, or deferred. */
  function Finalizers(w: World, i: nat): seq<Finalizer>
    requires Shaped(w) && i < |w.g.records|
  {
    w.ran[i] + w.queued[i] + w.g.records[i].deferred
  }

  function Single(f: Option<Finalizer>): seq<Finalizer> {
    if f.Some? then [f.value] else []
  }

  predicate Adds(w: World, e: Event, i: nat)
    requires Shaped(w) && i < |w.g.records|
  {
    && i < |Step(w, e).g.records|
    && Finalizers(Step(w, e), i)
       == if Finalizers(w, i) == [] then Single(EndedWith(w, e, i)) else Finalizers(w, i)
  }

  lemma RegisteredAdds(r: Record, f: Option<Finalizer>, queued: seq<Finalizer>, ran: seq<Finalizer>)
    requires RecordOk(r, queued, ran)
    ensures var was := ran + queued + r.deferred;
            ran + (queued + RunNow(r, f)) + Registered(r, f).deferred == if was == [] then Single(f) else was
  {
    hide Total;
  }

  lemma RecordAt(w: World, i: nat)
    requires Ok(w) && i < |w.g.records|
    ensures RecordOk(w.g.records[i], w.queued[i], w.ran[i])
  {
  }

  lemma PutAdds(w: World, j: nat, r: Record, out: seq<Finalizer>, i: nat)
    requires Shaped(w) && i < |w.g.records| && j < |w.g.records|
    ensures i < |Put(w, j, r, out).g.records|
    ensures Finalizers(Put(w, j, r, out), i)
         == if i == j then w.ran[i] + (w.queued[i] + out) + r.deferred else Finalizers(w, i)
  {
  }

  lemma EnterAdds(w: World, t: Thread, j: nat, f: Option<Finalizer>, i: nat)
    requires Ok(w) && Shaped(w) && i < |w.g.records|
    ensures Adds(w, DrainEnter(t, j, f), i)
  {
    hide Ok, RecordOk, Held, Registered, RunNow;
    RecordAt(w, i);
    var e := DrainEnter(t, j, f);
    if t in w.draining || j >= |w.g.records| || w.g.records[j].accepting {
      assert Step(w, e) == w;
    } else if w.g.records[j].active > Held(w.g.records[j], t) {
      assert Step(w, e).g == w.g && Step(w, e).queued == w.queued && Step(w, e).ran == w.ran;
    } else {
      var r := w.g.records[j];
      assert Step(w, e) == Put(w, j, Registered(r, f), RunNow(r, f));
      RegisteredAdds(w.g.records[i], f, w.queued[i], w.ran[i]);
      PutAdds(w, j, Registered(r, f), RunNow(r, f), i);
    }
  }

  lemma LookAdds(w: World, t: Thread, i: nat)
    requires Ok(w) && Shaped(w) && i < |w.g.records|
    ensures Adds(w, Look(t), i)
  {
    hide Ok, RecordOk, Held, Registered, RunNow;
    RecordAt(w, i);
    if t in w.draining {
      RegisteredAdds(w.g.records[i], w.draining[t].finalizer, w.queued[i], w.ran[i]);
    }
  }

  lemma ReleaseAdds(w: World, e: Event, i: nat)
    requires Ok(w) && i < |w.g.records| && e.DoRelease?
    ensures Adds(w, e, i)
  {
    hide Total, Held;
    assert RecordOk(w.g.records[i], w.queued[i], w.ran[i]);
    hide Ok, RecordOk;
  }

  lemma OtherAdds(w: World, e: Event, i: nat)
    requires Shaped(w) && i < |w.g.records| && !e.DrainEnter? && !e.Look? && !e.DoRelease?
    ensures Adds(w, e, i)
  {
    hide Held;
  }

  /** A step adds the finalizer of the drain it ends, if none was added before. */
  lemma StepAdds(w: World, e: Event, i: nat)
    requires Ok(w) && i < |w.g.records|
    ensures Adds(w, e, i)
  {
    assert Shaped(w);
    hide Ok, Adds;
    if e.DrainEnter? {
      EnterAdds(w, e.t, e.record, e.finalizer, i);
    } else if e.Look? {
      LookAdds(w, e.t, i);
    } else if e.DoRelease? {
      ReleaseAdds(w, e, i);
    } else {
      OtherAdds(w, e, i);
    }
  }

  lemma NewRecordHasNone(w: World, e: Event, i: nat)
    requires Shaped(w) && |w.g.records| <= i < |Step(w, e).g.records|
    ensures Finalizers(Step(w, e), i) == [] && EndedWith(w, e, i) == None
  {
    hide Held, Registered, RunNow, Returned, Flushed;
  }

  lemma {:induction false} NoneBefore(trace: seq<Event>, i: nat)
    requires i >= |Run(Start, trace).g.records|
    ensures FirstFinalizer(trace, i) == None
  {
    if trace != [] {
      var before := trace[..|trace| - 1];
      RecordsStay(Run(Start, before), trace[|trace| - 1]);
      hide Step, EndedWith;
      NoneBefore(before, i);
      NothingEnds(Run(Start, before), trace[|trace| - 1], i);
    }
  }

  lemma NothingEnds(w: World, e: Event, i: nat)
    requires i >= |w.g.records|
    ensures EndedWith(w, e, i) == None
  {
  }

  lemma RecordsStay(w: World, e: Event)
    requires Shaped(w)
    ensures |w.g.records| <= |Step(w, e).g.records|
  {
    hide Held, Registered, RunNow, Returned, Flushed, Taken;
  }

  lemma {:induction false} FinalizersAre(trace: seq<Event>, i: nat)
    requires i < |Run(Start, trace).g.records|
    ensures Finalizers(Run(Start, trace), i) == Single(FirstFinalizer(trace, i))
  {
    hide Step, EndedWith, Finalizers;
    if trace != [] {
      var before, e := trace[..|trace| - 1], trace[|trace| - 1];
      var w := Run(Start, before);
      RunOk(before);
      if i < |w.g.records| {
        FinalizersAre(before, i);
        StepAdds(w, e, i);
      } else {
        NoneBefore(before, i);
        NewRecordHasNone(w, e, i);
      }
    }
  }

  /** Exactly which finalizer a record gets.  In every run the finalizers of a record that
      have run, are handed out, or wait for the last lease are the one of the first drain
      that ended with one, and nothing else; it waits while leases are held, and it is
      handed out or has run once they are all back. */
  lemma FinalizerExactly(trace: seq<Event>, i: nat)
    requires i < |Run(Start, trace).g.records|
    ensures var w := Run(Start, trace);
            && w.ran[i] + w.queued[i] + w.g.records[i].deferred == Single(FirstFinalizer(trace, i))
            && (w.g.records[i].active == 0 ==> w.ran[i] + w.queued[i] == Single(FirstFinalizer(trace, i)))
            && (w.g.records[i].active > 0 ==> w.ran[i] == w.queued[i] == [])
  {
    FinalizersAre(trace, i);
    RunOk(trace);
    hide FirstFinalizer, Run;
    assert RecordOk(Run(Start, trace).g.records[i], Run(Start, trace).queued[i], Run(Start, trace).ran[i]);
  }

  /** And it never changes: whatever happens after the first such drain. */
  lemma {:induction false} FinalizerForever(trace: seq<Event>, more: seq<Event>, i: nat)
    requires FirstFinalizer(trace, i).Some?
    ensures FirstFinalizer(trace + more, i) == FirstFinalizer(trace, i)
    decreases |more|
  {
    if more == [] {
      assert trace + more == trace;
    } else {
      FinalizerForever(trace, more[..|more| - 1], i);
      assert (trace + more)[..|trace + more| - 1] == trace + more[..|more| - 1];
    }
  }

  // ----- Leases and the current record -----

  function HeldOn(w: World, i: nat, t: Thread): nat {
    if i < |w.g.records| then Held(w.g.records[i], t) else 0
  }

  /** The event grants thread `t` a lease on record `i`. */
  predicate Grants(w: World, e: Event, i: nat, t: Thread) {
    e == DoAcquire(t) && t !in w.draining && w.g.current == Some(i)
  }

  /** The event returns one. */
  predicate GivesBack(w: World, e: Event, i: nat, t: Thread) {
    e == DoRelease(t, i) && t !in w.draining && HeldOn(w, i, t) > 0
  }

  predicate LeasesFollow(w: World, e: Event, i: nat, t: Thread)
    requires Shaped(w)
  {
    HeldOn(Step(w, e), i, t)
      == HeldOn(w, i, t) + (if Grants(w, e, i, t) then 1 else 0) - (if GivesBack(w, e, i, t) then 1 else 0)
  }

  lemma RecordHeld(r: Record, t: Thread, f: Option<Finalizer>, u: Thread)
    ensures Held(Taken(r, t), u) == Held(r, u) + (if u == t then 1 else 0)
    ensures Held(Returned(r, t), u) == if u == t && Held(r, t) > 0 then Held(r, t) - 1 else Held(r, u)
    ensures Held(Registered(r, f), u) == Held(r, u)
  {
  }

  lemma AcquireStep(w: World, u: Thread, i: nat, t: Thread)
    requires Ok(w)
    ensures LeasesFollow(w, DoAcquire(u), i, t)
  {
    if i < |w.g.records| { RecordHeld(w.g.records[i], u, None, t); }
    hide RecordOk, Held, Taken;
  }

  lemma ReleaseStep(w: World, u: Thread, j: nat, i: nat, t: Thread)
    requires Ok(w)
    ensures LeasesFollow(w, DoRelease(u, j), i, t)
  {
    if j < |w.g.records| {
      RecordHeld(w.g.records[j], u, None, t);
      assert u in w.g.records[j].threads <==> Held(w.g.records[j], u) > 0 by {
        assert RecordOk(w.g.records[j], w.queued[j], w.ran[j]);
      }
    }
    hide Ok, RecordOk, Held, Returned, Flushed;
  }

  lemma DrainStep(w: World, e: Event, i: nat, t: Thread)
    requires Shaped(w) && (e.DrainEnter? || e.Look?)
    ensures LeasesFollow(w, e, i, t)
  {
    if i < |w.g.records| {
      if e.DrainEnter? {
        RecordHeld(w.g.records[i], t, e.finalizer, t);
      } else if e.t in w.draining {
        RecordHeld(w.g.records[i], t, w.draining[e.t].finalizer, t);
      }
    }
    hide Held, Registered, RunNow;
  }

  lemma LeaseStep(w: World, e: Event, i: nat, t: Thread)
    requires Ok(w)
    ensures LeasesFollow(w, e, i, t)
  {
    assert Shaped(w);
    match e
    case DoAcquire(u) => hide Ok, LeasesFollow; AcquireStep(w, u, i, t);
    case DoRelease(u, j) => hide Ok, LeasesFollow; ReleaseStep(w, u, j, i, t);
    case DrainEnter(_, _, _) => hide Ok, LeasesFollow; DrainStep(w, e, i, t);
    case Look(_) => hide Ok, LeasesFollow; DrainStep(w, e, i, t);
    case _ => hide Ok;
  }

  /** How many leases a thread has on a record: what it was granted less what it gave
      back. */
  function Ledger(trace: seq<Event>, i: nat, t: Thread): int {
    if trace == [] then 0
    else
      var w, e := Run(Start, trace[..|trace| - 1]), trace[|trace| - 1];
      Ledger(trace[..|trace| - 1], i, t)
        + (if Grants(w, e, i, t) then 1 else 0) - (if GivesBack(w, e, i, t) then 1 else 0)
  }

  /** The record that a run's publications and retirements leave current: the number of
      records before the last publication that found none. */
  function CurrentOf(trace: seq<Event>): (Option<nat>, nat) {
    if trace == [] then (None, 0)
    else
      var (current, count) := CurrentOf(trace[..|trace| - 1]);
      match trace[|trace| - 1]
      case DoPublish => if current.Some? then (current, count) else (Some(count), count + 1)
      case DoRetire => (None, count)
      case _ => (current, count)
  }

  lemma CurrentStep(w: World, e: Event)
    requires Ok(w)
    ensures var n := Step(w, e);
            match e
            case DoPublish =>
              if w.g.current.Some? then n.g.current == w.g.current && |n.g.records| == |w.g.records|
              else n.g.current == Some(|w.g.records|) && |n.g.records| == |w.g.records| + 1
            case DoRetire => n.g.current == None && |n.g.records| == |w.g.records|
            case _ => n.g.current == w.g.current && |n.g.records| == |w.g.records|
  {
    hide RecordOk, Held, Registered, RunNow, Returned, Flushed, Taken;
  }

  /** The gate against its history.  In every run the current record is the one the
      publications and retirements say, a lease is granted to every thread that asks while
      there is one, and each thread holds what it was granted and has not given back. */
  lemma {:induction false} GateFollowsHistory(trace: seq<Event>, i: nat, t: Thread)
    ensures var w := Run(Start, trace);
            (w.g.current, |w.g.records|) == CurrentOf(trace) && HeldOn(w, i, t) == Ledger(trace, i, t)
  {
    hide Step, Grants, GivesBack;
    if trace != [] {
      var before, e := trace[..|trace| - 1], trace[|trace| - 1];
      RunOk(before);
      GateFollowsHistory(before, i, t);
      LeaseStep(Run(Start, before), e, i, t);
      CurrentStep(Run(Start, before), e);
    }
  }
}
