/** Generation-scoped admission and draining of backend clients
    (src/scrapy_extension/backends/_generation.py).  The functions are the bodies that
    run under `condition`; the runs interleave them over any number of threads. */
module LeaseGate {
  import opened Options

  type Thread = nat
  type Finalizer = nat

  /** `GenerationRecord`. */
  datatype Record = Record(
    accepting: bool,
    active: nat,
    threads: map<Thread, nat>,
    deferred: seq<Finalizer>,
    registered: bool)

  /** `GenerationLeaseGate`: every record ever published, in order of generation, and
      the current one. */
  datatype Gate = Gate(records: seq<Record>, current: Option<nat>)

  const NewRecord := Record(true, 0, map[], [], false)

  function Held(r: Record, t: Thread): nat {
    if t in r.threads then r.threads[t] else 0
  }

  function Publish(g: Gate): (Gate, nat) {
    if g.current.Some? && g.current.value < |g.records| && g.records[g.current.value].accepting
        then (g, g.current.value)
    else (Gate(g.records + [NewRecord], Some(|g.records|)), |g.records|)
  }

  function Retire(g: Gate): (Gate, Option<nat>) {
    if g.current.Some? && g.current.value < |g.records| then
      var i := g.current.value;
      (Gate(g.records[i := g.records[i].(accepting := false)], None), Some(i))
    else (g, None)
  }

  function Taken(r: Record, t: Thread): Record {
    r.(active := r.active + 1, threads := r.threads[t := Held(r, t) + 1])
  }

  /** The entry of `lease`; `None` is `GenerationUnavailable`. */
  function Acquire(g: Gate, t: Thread): (Gate, Option<nat>) {
    if g.current.Some? && g.current.value < |g.records| && g.records[g.current.value].accepting then
      var i := g.current.value;
      (g.(records := g.records[i := Taken(g.records[i], t)]), Some(i))
    else (g, None)
  }

  function Returned(r: Record, t: Thread): Record {
    var less := r.(active := if r.active > 0 then r.active - 1 else 0,
                   threads := if Held(r, t) <= 1 then r.threads - {t} else r.threads[t := Held(r, t) - 1]);
    if less.active == 0 then less.(deferred := []) else less
  }

  /** What the `finally` of `lease` must run once the lock is released. */
  function Flushed(r: Record): seq<Finalizer> {
    if r.active <= 1 then r.deferred else []
  }

  /** The end of `drain`: registration, after the wait. */
  function Registered(r: Record, f: Option<Finalizer>): Record {
    if f.Some? && !r.registered then
      if r.active == 0 then r.(registered := true)
      else r.(registered := true, deferred := r.deferred + [f.value])
    else r
  }

  function RunNow(r: Record, f: Option<Finalizer>): seq<Finalizer> {
    if f.Some? && !r.registered && r.active == 0 then [f.value] else []
  }

  // ----- Runs -----

  datatype Drain = Drain(record: nat, owned: nat, finalizer: Option<Finalizer>)

  /** `draining` are the threads inside the wait loop of `drain`, with what they found on
      entry; `woken` those of them that were notified, or interrupted, and have yet to
      look again, so the others sleep.  Per record, `queued` are finalizers handed out but
      not run yet, and `ran` those run. */
  datatype World = World(g: Gate, draining: map<Thread, Drain>, woken: set<Thread>, queued: seq<seq<Finalizer>>,
                         ran: seq<seq<Finalizer>>)

  const Start := World(Gate([], None), map[], {}, [], [])

  datatype Event =
    | DoPublish
    | DoRetire
    | DoAcquire(t: Thread)
    | DoRelease(t: Thread, record: nat)
    | DrainEnter(t: Thread, record: nat, finalizer: Option<Finalizer>)
    | Look(t: Thread)
    | Interrupt(t: Thread)
    | RunFinalizer(record: nat)

  predicate Shaped(w: World) {
    |w.queued| == |w.g.records| && |w.ran| == |w.g.records|
  }

  function Put(w: World, i: nat, r: Record, out: seq<Finalizer>): World
    requires Shaped(w) && i < |w.g.records|
  {
    w.(g := w.g.(records := w.g.records[i := r]), queued := w.queued[i := w.queued[i] + out])
  }

  /** `condition.notify_all()`. */
  function Notified(w: World): World {
    w.(woken := w.draining.Keys)
  }

  /** The guard of the wait loop no longer holds. */
  predicate PastWait(w: World, t: Thread) {
    t in w.draining && w.draining[t].record < |w.g.records|
        && w.g.records[w.draining[t].record].active <= w.draining[t].owned
  }

  function Released(w: World, t: Thread, i: nat): World
    requires Shaped(w) && i < |w.g.records|
  {
    var n := Put(w, i, Returned(w.g.records[i], t), Flushed(w.g.records[i]));
    if n.g.records[i].active == 0 then Notified(n) else n
  }

  function Entered(w: World, t: Thread, i: nat, f: Option<Finalizer>): World
    requires Shaped(w) && i < |w.g.records|
  {
    var r := w.g.records[i];
    if r.active <= Held(r, t) then Put(w, i, Registered(r, f), RunNow(r, f))
    else w.(draining := w.draining[t := Drain(i, Held(r, t), f)], woken := w.woken - {t})
  }

  function Looked(w: World, t: Thread): World
    requires Shaped(w) && t in w.draining
  {
    if PastWait(w, t) then
      var d := w.draining[t];
      var r := w.g.records[d.record];
      Put(w, d.record, Registered(r, d.finalizer), RunNow(r, d.finalizer))
        .(draining := w.draining - {t}, woken := w.woken - {t})
    else w.(woken := w.woken - {t})
  }

  /** An event whose guard fails leaves the world as it is.  A thread inside `drain`
      does nothing else; only a thread that holds a lease returns it; only retired
      records are drained. */
  function Step(w: World, e: Event): World
    requires Shaped(w)
    ensures Shaped(Step(w, e))
  {
    match e
    case DoPublish =>
      var (g, i) := Publish(w.g);
      if |g.records| == |w.g.records| then w.(g := g)
      else Notified(w.(g := g, queued := w.queued + [[]], ran := w.ran + [[]]))
    case DoRetire => if w.g.current.None? then w else Notified(w.(g := Retire(w.g).0))
    case DoAcquire(t) => if t in w.draining then w else w.(g := Acquire(w.g, t).0)
    case DoRelease(t, i) =>
      if t in w.draining || i >= |w.g.records| || t !in w.g.records[i].threads then w else Released(w, t, i)
    case DrainEnter(t, i, f) =>
      if t in w.draining || i >= |w.g.records| || w.g.records[i].accepting then w else Entered(w, t, i, f)
    case Look(t) => if t in w.draining && t in w.woken then Looked(w, t) else w
    case Interrupt(t) => if t in w.draining then w.(woken := w.woken + {t}) else w
    case RunFinalizer(i) =>
      if i >= |w.g.records| || w.queued[i] == [] then w
      else w.(queued := w.queued[i := w.queued[i][1..]], ran := w.ran[i := w.ran[i] + [w.queued[i][0]]])
  }

  function Run(w: World, trace: seq<Event>): World
    requires Shaped(w)
    ensures Shaped(Run(w, trace))
  {
    if trace == [] then w else Step(Run(w, trace[..|trace| - 1]), trace[|trace| - 1])
  }

  // ----- Counting leases -----

  ghost function Total(m: map<Thread, nat>): nat
    decreases |m|
  {
    if m == map[] then 0
    else
      var t :| t in m;
      m[t] + Total(m - {t})
  }

  lemma {:induction false} TotalPick(m: map<Thread, nat>, t: Thread)
    requires t in m
    ensures Total(m) == m[t] + Total(m - {t})
    decreases |m|
  {
    var u :| u in m && Total(m) == m[u] + Total(m - {u});
    if u != t {
      TotalPick(m - {u}, t);
      TotalPick(m - {t}, u);
      assert m - {u} - {t} == m - {t} - {u};
    }
  }

  /** What threads other than `t` hold. */
  ghost function Others(r: Record, t: Thread): nat {
    Total(r.threads - {t})
  }

  lemma OthersSplit(r: Record, t: Thread)
    ensures Total(r.threads) == Held(r, t) + Others(r, t)
  {
    if t in r.threads {
      TotalPick(r.threads, t);
    } else {
      assert r.threads - {t} == r.threads;
    }
  }

  /** A record in good order, with what was handed out of it. */
  ghost predicate RecordOk(r: Record, queued: seq<Finalizer>, ran: seq<Finalizer>) {
    && r.active == Total(r.threads)
    && (forall t :: t in r.threads ==> r.threads[t] > 0)
    && |r.deferred| + |queued| + |ran| == (if r.registered then 1 else 0)
    && (r.registered ==> !r.accepting)
    && (r.deferred != [] ==> r.active > 0)
    && (queued != [] || ran != [] ==> r.active == 0)
  }

  /** A draining thread, its record retired, holds what it held on entry; one that holds
      nothing sleeps only while others hold something. */
  predicate DrainOk(r: Record, t: Thread, d: Drain, woken: bool) {
    !r.accepting && d.owned == Held(r, t) && (woken || d.owned > 0 || r.active > 0)
  }

  ghost predicate Ok(w: World) {
    && Shaped(w)
    && (forall i :: 0 <= i < |w.g.records| ==> RecordOk(w.g.records[i], w.queued[i], w.ran[i]))
    && (forall i :: 0 <= i < |w.g.records| ==> (w.g.records[i].accepting <==> w.g.current == Some(i)))
    && (w.g.current.Some? ==> w.g.current.value < |w.g.records|)
    && w.woken <= w.draining.Keys
    && (forall t :: t in w.draining ==>
          w.draining[t].record < |w.g.records|
              && DrainOk(w.g.records[w.draining[t].record], t, w.draining[t], t in w.woken))
  }

  lemma TakenKeeps(r: Record, t: Thread, queued: seq<Finalizer>, ran: seq<Finalizer>)
    requires RecordOk(r, queued, ran) && r.accepting
    ensures RecordOk(Taken(r, t), queued, ran) && Taken(r, t).accepting
  {
    OthersSplit(r, t);
    var n := Taken(r, t);
    TotalPick(n.threads, t);
    assert n.threads - {t} == r.threads - {t};
  }

  /** Returning one lease takes one from its holder and nothing from the others, and
      hands the deferred finalizer out exactly when it was the last lease. */
  lemma ReturnedKeeps(r: Record, t: Thread, queued: seq<Finalizer>, ran: seq<Finalizer>)
    requires RecordOk(r, queued, ran) && t in r.threads
    ensures var n := Returned(r, t);
            && RecordOk(n, queued + Flushed(r), ran)
            && n.active == r.active - 1 && Held(n, t) == Held(r, t) - 1
            && (forall u :: u != t ==> Held(n, u) == Held(r, u))
            && n.accepting == r.accepting
  {
    OthersSplit(r, t);
    var n := Returned(r, t);
    assert n.threads - {t} == r.threads - {t};
    OthersSplit(n, t);
  }

  lemma RegisteredKeeps(r: Record, f: Option<Finalizer>, queued: seq<Finalizer>, ran: seq<Finalizer>)
    requires RecordOk(r, queued, ran) && !r.accepting
    ensures RecordOk(Registered(r, f), queued + RunNow(r, f), ran)
    ensures Registered(r, f).accepting == r.accepting && Registered(r, f).threads == r.threads
  {
  }

  lemma NewKeeps()
    ensures RecordOk(NewRecord, [], [])
  {
  }

  lemma PlainChangesKeep(r: Record, queued: seq<Finalizer>, ran: seq<Finalizer>)
    requires RecordOk(r, queued, ran)
    ensures RecordOk(r.(accepting := false), queued, ran)
    ensures queued != [] ==> RecordOk(r, queued[1..], ran + [queued[0]])
  {
  }

  /** One record changes, and the threads that keep draining it keep their leases. */
  lemma OneRecordKeeps(w: World, n: World, i: nat)
    requires Ok(w) && Shaped(n) && i < |w.g.records| == |n.g.records|
    requires n.g.current == w.g.current && n.woken <= n.draining.Keys
    requires forall j :: 0 <= j < |w.g.records| && j != i ==>
               n.g.records[j] == w.g.records[j] && n.queued[j] == w.queued[j] && n.ran[j] == w.ran[j]
    requires RecordOk(n.g.records[i], n.queued[i], n.ran[i]) && n.g.records[i].accepting == w.g.records[i].accepting
    requires forall t :: t in n.draining ==>
               t in w.draining && n.draining[t] == w.draining[t] && (t in w.woken ==> t in n.woken)
    requires forall t :: t in n.draining && n.draining[t].record == i ==>
               Held(n.g.records[i], t) == Held(w.g.records[i], t)
    requires n.g.records[i].active == w.g.records[i].active || n.g.records[i].active > 0 || n.woken == n.draining.Keys
    ensures Ok(n)
  {
    hide RecordOk;
  }

  lemma ReleaseKeeps(w: World, t: Thread, i: nat)
    requires Ok(w) && i < |w.g.records| && t in w.g.records[i].threads && t !in w.draining
    ensures Ok(Released(w, t, i))
  {
    ReturnedKeeps(w.g.records[i], t, w.queued[i], w.ran[i]);
    hide RecordOk, Returned, Flushed;
    OneRecordKeeps(w, Released(w, t, i), i);
  }

  lemma EnterKeeps(w: World, t: Thread, i: nat, f: Option<Finalizer>)
    requires Ok(w) && i < |w.g.records| && t !in w.draining && !w.g.records[i].accepting
    ensures Ok(Entered(w, t, i, f))
  {
    RegisteredKeeps(w.g.records[i], f, w.queued[i], w.ran[i]);
    hide RecordOk, Registered, RunNow;
    if w.g.records[i].active <= Held(w.g.records[i], t) {
      OneRecordKeeps(w, Entered(w, t, i, f), i);
    }
  }

  lemma LookKeeps(w: World, t: Thread)
    requires Ok(w) && t in w.draining
    ensures Ok(Looked(w, t))
  {
    var d := w.draining[t];
    RegisteredKeeps(w.g.records[d.record], d.finalizer, w.queued[d.record], w.ran[d.record]);
    hide RecordOk, Registered, RunNow;
    if PastWait(w, t) {
      OneRecordKeeps(w, Looked(w, t), d.record);
    }
  }

  lemma CurrentKeeps(w: World, e: Event)
    requires Ok(w) && (e.DoPublish? || e.DoRetire? || e.DoAcquire?)
    ensures Ok(Step(w, e))
  {
    hide RecordOk, Taken;
    match e
    case DoPublish => NewKeeps();
    case DoRetire =>
      if w.g.current.Some? {
        var i := w.g.current.value;
        PlainChangesKeep(w.g.records[i], w.queued[i], w.ran[i]);
      }
    case DoAcquire(t) =>
      if w.g.current.Some? {
        var i := w.g.current.value;
        TakenKeeps(w.g.records[i], t, w.queued[i], w.ran[i]);
      }
  }

  lemma StepKeeps(w: World, e: Event)
    requires Ok(w)
    ensures Ok(Step(w, e))
  {
    hide RecordOk, Taken, Returned, Flushed, Registered, RunNow, Released, Entered, Looked;
    match e
    case DoPublish => CurrentKeeps(w, e);
    case DoRetire => CurrentKeeps(w, e);
    case DoAcquire(t) => CurrentKeeps(w, e);
    case DoRelease(t, i) =>
      if i < |w.g.records| && t in w.g.records[i].threads && t !in w.draining { ReleaseKeeps(w, t, i); }
    case DrainEnter(t, i, f) =>
      if t !in w.draining && i < |w.g.records| && !w.g.records[i].accepting { EnterKeeps(w, t, i, f); }
    case Look(t) => if t in w.draining { LookKeeps(w, t); }
    case Interrupt(t) =>
    case RunFinalizer(i) =>
      if i < |w.g.records| { PlainChangesKeep(w.g.records[i], w.queued[i], w.ran[i]); }
  }

  lemma {:induction false} RunOk(trace: seq<Event>)
    ensures Ok(Run(Start, trace))
  {
    if trace != [] {
      RunOk(trace[..|trace| - 1]);
      StepKeeps(Run(Start, trace[..|trace| - 1]), trace[|trace| - 1]);
    }
  }

  // ----- What the gate promises -----

  /** Finalizer safety.  In every reachable state and for every record: at most one
      finalizer has run; none has run, or been handed out to run, while a lease is held
      or new leases are admitted; and once a drain has registered one and every lease is
      back, exactly one has run or is about to. */
  lemma FinalizerSafety(trace: seq<Event>, i: nat)
    requires i < |Run(Start, trace).g.records|
    ensures var w := Run(Start, trace);
            var r := w.g.records[i];
            && |w.ran[i]| <= 1
            && (w.ran[i] != [] || w.queued[i] != [] ==> r.active == 0 && !r.accepting)
            && (r.registered && r.active == 0 ==> |w.ran[i]| + |w.queued[i]| == 1)
            && (!r.registered ==> w.ran[i] == [] && w.queued[i] == [])
  {
    RunOk(trace);
  }

  /** Lease accounting.  The lease count is the sum over the threads, a thread is listed
      only while it holds a lease, and the accepting record, if any, is the current one. */
  lemma LeaseAccounting(trace: seq<Event>, i: nat)
    requires i < |Run(Start, trace).g.records|
    ensures var w := Run(Start, trace);
            var r := w.g.records[i];
            && r.active == Total(r.threads)
            && (forall t :: t in r.threads ==> r.threads[t] > 0)
            && (r.accepting <==> w.g.current == Some(i))
  {
    RunOk(trace);
  }

  /** What a step can do to a retired record: nothing, the return of a lease, or the
      registration that ends a drain. */
  predicate RetiredChange(r: Record, n: Record, e: Event, i: nat, released: bool) {
    || (n == r && !released)
    || (released && e.DoRelease? && e.record == i && e.t in r.threads && n == Returned(r, e.t))
    || (!released && n.active == r.active && n.threads == r.threads && !n.accepting && (r.registered ==> n.registered))
  }

  predicate IsRelease(w: World, e: Event, i: nat) {
    e.DoRelease? && e.record == i && i < |w.g.records| && e.t !in w.draining && e.t in w.g.records[i].threads
  }

  lemma RetiredStep(w: World, e: Event, i: nat)
    requires Ok(w) && i < |w.g.records| && !w.g.records[i].accepting
    ensures i < |Step(w, e).g.records|
    ensures RetiredChange(w.g.records[i], Step(w, e).g.records[i], e, i, IsRelease(w, e, i))
  {
    hide RecordOk, DrainOk, Returned, Flushed, RunNow;
  }

  /** A retired record grants no lease, stays retired, and what any other thread than
      `t` holds on it never grows; it shrinks by one with every lease another returns. */
  lemma RetiredOnlyDrains(w: World, e: Event, i: nat, t: Thread)
    requires Ok(w) && i < |w.g.records| && !w.g.records[i].accepting
    ensures var n := Step(w, e);
            && i < |n.g.records| && !n.g.records[i].accepting
            && n.g.records[i].active <= w.g.records[i].active
            && (forall u :: Held(n.g.records[i], u) <= Held(w.g.records[i], u))
            && Others(n.g.records[i], t) <= Others(w.g.records[i], t)
            && (IsRelease(w, e, i) && e.t != t ==> Others(n.g.records[i], t) == Others(w.g.records[i], t) - 1)
            && (w.g.records[i].registered ==> n.g.records[i].registered)
  {
    var r := w.g.records[i];
    assert RecordOk(r, w.queued[i], w.ran[i]);
    RetiredStep(w, e, i);
    OthersSplit(r, t);
    if IsRelease(w, e, i) {
      ReturnedKeeps(r, e.t, w.queued[i], w.ran[i]);
      OthersSplit(Returned(r, e.t), t);
    }
    hide RecordOk, Returned, Step, Ok;
  }
}
