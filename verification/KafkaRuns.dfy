/** What holds over every run of the delivery protocol of KafkaProtocol. */
module KafkaRuns {
  import opened Options
  import opened KafkaDelivery
  import opened KafkaProtocol

  // ----- The invariant of the world -----

  ghost predicate SessionsOk(log: Log, acked: set<Key>, last: nat, sessions: seq<Session>) {
    forall i :: 0 <= i < |sessions| ==> SessionOk(log, acked, last, sessions[i])
  }

  /** The live session is the only one that is not retired, carries the counters of the
      backend, and generations strictly increase. */
  predicate LivesOk(sessions: seq<Session>, live: Option<nat>, generation: nat, epoch: nat) {
    && (forall i :: 0 <= i < |sessions| ==> sessions[i].h.generation <= generation && sessions[i].h.epoch <= epoch)
    && (forall i, j :: 0 <= i < j < |sessions| ==> sessions[i].h.generation < sessions[j].h.generation)
    && (forall i :: 0 <= i < |sessions| ==> (sessions[i].h.retired <==> live != Some(i)))
    && (live.Some? ==>
          && live.value < |sessions|
          && sessions[live.value].h.generation == generation
          && sessions[live.value].h.epoch == epoch)
  }

  /** What the settlement that is out relies on when its driver call comes back. */
  ghost predicate OutstandingOk(log: Log, acked: set<Key>, epoch: nat, sessions: seq<Session>, o: Outstanding) {
    match o
    case Idle => true
    case Acking(g, t, wm, origin) =>
      && g < |sessions|
      && origin <= wm
      && Covered(log, acked, t.tp, origin, wm)
      && (IsActive(sessions[g].h, t) ==> AckingOk(sessions[g], t, wm, origin))
    case BareAcking(g, r, at, origin, _) =>
      && g < |sessions|
      && r in acked
      && origin <= r.offset
      && Covered(log, acked, r.tp, origin, r.offset + 1)
      && at <= epoch
      && (sessions[g].h.epoch == at ==> !sessions[g].h.HasActive(r.tp))
    case Nacking(g, t) => g < |sessions|
    case BareNacking(g, r, at, owned) =>
      && g < |sessions|
      && at <= epoch
      && (sessions[g].h.epoch == at && sessions[g].h.legacy == Some(r) ==>
            r.tp in sessions[g].cursors && (owned ==> sessions[g].cursors[r.tp].position == r.offset))
  }

  ghost predicate WorldOk(log: Log, w: World) {
    && SessionsOk(log, w.acked, w.lastAttempt, w.sessions)
    && LivesOk(w.sessions, w.live, w.generation, w.epoch)
    && CommittedOk(log, w.acked, w.committed)
    && OutstandingOk(log, w.acked, w.epoch, w.sessions, w.outstanding)
  }

  lemma PutKeeps(log: Log, w: World, g: nat, s: Session, more: set<Key>, later: nat)
    requires SessionsOk(log, w.acked, w.lastAttempt, w.sessions)
    requires g < |w.sessions| && w.acked <= more && w.lastAttempt <= later
    requires SessionOk(log, more, later, s)
    ensures SessionsOk(log, more, later, w.sessions[g := s])
  {
    hide SessionOk;
    forall i | 0 <= i < |w.sessions| && i != g ensures SessionOk(log, more, later, w.sessions[i]) {
      SessionOkMonotone(log, w.acked, more, w.lastAttempt, later, w.sessions[i]);
    }
  }

  lemma PutSameIdentity(w: World, g: nat, s: Session)
    requires LivesOk(w.sessions, w.live, w.generation, w.epoch)
    requires g < |w.sessions| && SameIdentity(w.sessions[g].h, s.h)
    ensures LivesOk(w.sessions[g := s], w.live, w.generation, w.epoch)
  {
  }

  lemma CommittedMonotone(log: Log, acked: set<Key>, more: set<Key>, committed: map<Partition, Commit>)
    requires CommittedOk(log, acked, committed) && acked <= more
    ensures CommittedOk(log, more, committed)
  {
    forall tp | tp in committed ensures Covered(log, more, tp, committed[tp].origin, committed[tp].offset) {
      assert Covered(log, acked, tp, committed[tp].origin, committed[tp].offset);
    }
  }

  lemma ConnectKeeps(log: Log, w: World)
    requires WorldOk(log, w)
    ensures WorldOk(log, Step(log, w, Connect))
  {
    hide SessionOk, CommittedOk;
    var n := Step(log, w, Connect);
    if w.live.None? {
      var newest := Session(Fresh(w.generation + 1, w.epoch), map[], {});
      FreshOk(log, w.acked, w.lastAttempt, w.generation + 1, w.epoch);
      assert n.sessions == w.sessions + [newest];
    }
  }

  lemma DisconnectKeeps(log: Log, w: World)
    requires WorldOk(log, w)
    ensures WorldOk(log, Step(log, w, Disconnect))
  {
    hide SessionOk, CommittedOk, Covered;
    if w.live.Some? {
      var g := w.live.value;
      var s := w.sessions[g];
      RetireKeeps(log, w.acked, w.lastAttempt, s);
      PutKeeps(log, w, g, s.(h := s.h.(retired := true)), w.acked, w.lastAttempt);
    }
  }

  lemma AssignedKeeps(log: Log, w: World, g: nat, resets: map<Partition, nat>)
    requires WorldOk(log, w)
    ensures WorldOk(log, Step(log, w, Assigned(g, resets)))
  {
    hide SessionOk, CommittedOk, Covered;
    if w.live == Some(g) {
      AdvanceKeeps(log, w.acked, w.lastAttempt, w.sessions[g], w.epoch + 1, w.committed, resets);
      hide Restart;
      PutKeeps(log, w, g, Session(Advance(w.sessions[g].h, w.epoch + 1), Restart(w.committed, resets), {}), w.acked,
               w.lastAttempt);
    }
  }

  lemma DeliveriesKeep(log: Log, w: World, e: Event)
    requires WorldOk(log, w) && (e.Deliver? || e.DeliverBare?)
    ensures WorldOk(log, Step(log, w, e))
  {
    hide SessionOk, CommittedOk;
    if IsNext(log, w, e.tp, e.offset) {
      var g := w.live.value;
      var s := w.sessions[g];
      if e.Deliver? {
        DeliverKeeps(log, w.acked, w.lastAttempt, s, e.tp, e.offset);
        PopSameIdentity(s.h, e.tp, e.offset, w.lastAttempt + 1);
        hide PopToken, Moved;
        PutKeeps(log, w, g, Delivered(s, e.tp, e.offset, w.lastAttempt + 1), w.acked, w.lastAttempt + 1);
        PutSameIdentity(w, g, Delivered(s, e.tp, e.offset, w.lastAttempt + 1));
      } else {
        DeliverBareKeeps(log, w.acked, w.lastAttempt, s, e.tp, e.offset);
        PopSameIdentity(s.h, e.tp, e.offset, 0);
        hide PopLegacy, Moved;
        PutKeeps(log, w, g, DeliveredBare(s, e.tp, e.offset), w.acked, w.lastAttempt);
        PutSameIdentity(w, g, DeliveredBare(s, e.tp, e.offset));
      }
    }
  }

  lemma AckKeeps(log: Log, w: World, g: nat, t: Token)
    requires WorldOk(log, w)
    ensures WorldOk(log, Step(log, w, Ack(g, t)))
  {
    hide SessionOk, AckBegin, Covered, CommittedOk, AckingOk;
    if w.outstanding == Idle && g < |w.sessions| {
      var s := w.sessions[g];
      var (h, plan) := AckBegin(s.h, t);
      AckBeginKeeps(log, w.acked, w.lastAttempt, s, t);
      AckBeginSameIdentity(s.h, t);
      var more := if plan.NoCommit? || plan.SendCommit? then w.acked + {KeyOf(t)} else w.acked;
      var n := if plan.SendCommit? then s.(h := h, unsettled := s.unsettled + {t.attempt}) else s.(h := h);
      PutSameIdentity(w, g, n);
      if plan.Stale? {
        assert s.(h := h) == s;
        assert w.sessions[g := s] == w.sessions;
      }
      PutKeeps(log, w, g, n, more, w.lastAttempt);
      CommittedMonotone(log, w.acked, more, w.committed);
    }
  }

  lemma BareAckKeeps(log: Log, w: World, g: nat)
    requires WorldOk(log, w)
    ensures WorldOk(log, Step(log, w, BareAck(g)))
  {
    hide SessionOk, CommittedOk;
    if w.outstanding == Idle && g < |w.sessions| {
      var s := w.sessions[g];
      if s.h.legacy.Some? && !BareAckRefused(s.h, s.h.legacy.value) {
        var r := s.h.legacy.value;
        BareAckCovers(log, w.acked, w.lastAttempt, s);
        hide Covered;
        SessionOkMonotone(log, w.acked, w.acked + {r}, w.lastAttempt, w.lastAttempt, s);
        PutKeeps(log, w, g, s, w.acked + {r}, w.lastAttempt);
        assert w.sessions[g := s] == w.sessions;
        CommittedMonotone(log, w.acked, w.acked + {r}, w.committed);
      }
    }
  }

  lemma RecordKeeps(log: Log, w: World, tp: Partition, c: Commit, applied: bool)
    requires CommittedOk(log, w.acked, w.committed)
    requires c.origin <= c.offset && Covered(log, w.acked, tp, c.origin, c.offset)
    ensures CommittedOk(log, w.acked, Record(w, tp, c, applied).committed)
  {
  }

  lemma CommitReturnsKeeps(log: Log, w: World, applied: bool, outcome: Outcome)
    requires WorldOk(log, w)
    ensures WorldOk(log, Step(log, w, CommitReturns(applied, outcome)))
  {
    match w.outstanding
    case Acking(g, t, wm, origin) => AckCommitReturnsKeeps(log, w, applied, outcome);
    case BareAcking(g, r, at, origin, tracked) => BareCommitReturnsKeeps(log, w, applied, outcome);
    case _ =>
  }

  lemma AckCommitReturnsKeeps(log: Log, w: World, applied: bool, outcome: Outcome)
    requires WorldOk(log, w) && w.outstanding.Acking?
    ensures WorldOk(log, Step(log, w, CommitReturns(applied, outcome)))
  {
    hide SessionOk, Covered, AckingOk, CommittedOk;
    var Acking(g, t, wm, origin) := w.outstanding;
    var s := w.sessions[g];
    CommitReturnedKeeps(log, w.acked, w.lastAttempt, s, t, wm, origin, outcome);
    CommitReturnedSameIdentity(s, t, wm, outcome);
    hide CommitReturned;
    PutKeeps(log, w, g, CommitReturned(s, t, wm, outcome), w.acked, w.lastAttempt);
    PutSameIdentity(w, g, CommitReturned(s, t, wm, outcome));
    RecordKeeps(log, w, t.tp, Commit(wm, origin), applied || outcome.Succeeded?);
  }

  lemma BareCommitReturnsKeeps(log: Log, w: World, applied: bool, outcome: Outcome)
    requires WorldOk(log, w) && w.outstanding.BareAcking?
    ensures WorldOk(log, Step(log, w, CommitReturns(applied, outcome)))
  {
    hide SessionOk, Covered, CommittedOk;
    var BareAcking(g, r, at, origin, tracked) := w.outstanding;
    var s := w.sessions[g];
    RecordKeeps(log, w, r.tp, Commit(r.offset + 1, origin), applied || outcome.Succeeded?);
    if outcome.Succeeded? && s.h.epoch == at {
      BareAckSettleKeeps(log, w.acked, w.lastAttempt, s, r, tracked);
      BareSettlesSameIdentity(s.h, r, tracked);
      hide BareAckSettle;
      PutKeeps(log, w, g, s.(h := BareAckSettle(s.h, r, tracked)), w.acked, w.lastAttempt);
      PutSameIdentity(w, g, s.(h := BareAckSettle(s.h, r, tracked)));
    } else {
      assert w.sessions[g := s] == w.sessions;
    }
  }

  lemma CommitReturnedSameIdentity(s: Session, t: Token, wm: nat, outcome: Outcome)
    ensures SameIdentity(s.h, CommitReturned(s, t, wm, outcome).h)
  {
    AckSettleSameIdentity(s.h, t, wm);
    hide AckSettle;
  }

  lemma NacksKeep(log: Log, w: World, e: Event)
    requires WorldOk(log, w) && (e.Nack? || e.BareNack?)
    ensures WorldOk(log, Step(log, w, e))
  {
    hide SessionOk, CommittedOk;
    var g := e.session;
    if w.outstanding == Idle && g < |w.sessions| && !w.sessions[g].h.retired {
      var s := w.sessions[g];
      if !e.owned {
        assert w.sessions[g := s] == w.sessions;
        if e.BareNack? && s.h.legacy.Some? { LegacyInRange(log, w.acked, w.lastAttempt, s); }
      } else if e.Nack? && IsActive(s.h, e.token) {
        var k := KeyOf(e.token);
        TokenInRange(log, w.acked, w.lastAttempt, s, e.token);
        SeekKeeps(log, w.acked, w.lastAttempt, s, k.tp, k.offset);
        PutKeeps(log, w, g, Sought(s, k.tp, k.offset), w.acked, w.lastAttempt);
        PutSameIdentity(w, g, Sought(s, k.tp, k.offset));
      } else if e.BareNack? && s.h.legacy.Some? {
        var r := s.h.legacy.value;
        LegacyInRange(log, w.acked, w.lastAttempt, s);
        SeekKeeps(log, w.acked, w.lastAttempt, s, r.tp, r.offset);
        PutKeeps(log, w, g, Sought(s, r.tp, r.offset), w.acked, w.lastAttempt);
        PutSameIdentity(w, g, Sought(s, r.tp, r.offset));
      }
    }
  }

  lemma SeekReturnsKeeps(log: Log, w: World, ok: bool)
    requires WorldOk(log, w)
    ensures WorldOk(log, Step(log, w, SeekReturns(ok)))
  {
    hide SessionOk, CommittedOk;
    match w.outstanding
    case Nacking(g, t) =>
      var s := w.sessions[g];
      FinishKeeps(log, w.acked, w.lastAttempt, s, t);
      FinishSameIdentity(s.h, t);
      hide Finish;
      PutKeeps(log, w, g, s.(h := Finish(s.h, t)), w.acked, w.lastAttempt);
      PutSameIdentity(w, g, s.(h := Finish(s.h, t)));
    case BareNacking(g, r, at, owned) =>
      var s := w.sessions[g];
      if s.h.epoch == at && s.h.legacy == Some(r) {
        BareNackReturnedKeeps(log, w.acked, w.lastAttempt, s, r, owned);
        BareSettlesSameIdentity(s.h, r, true);
        assert SameIdentity(s.h, BareNackReturned(s, r, owned).h);
        hide BareNackReturned;
        PutKeeps(log, w, g, BareNackReturned(s, r, owned), w.acked, w.lastAttempt);
        PutSameIdentity(w, g, BareNackReturned(s, r, owned));
      }
    case _ =>
  }

  lemma StepKeeps(log: Log, w: World, e: Event)
    requires WorldOk(log, w)
    ensures WorldOk(log, Step(log, w, e))
  {
    match e
    case Connect => ConnectKeeps(log, w);
    case Assigned(g, resets) => AssignedKeeps(log, w, g, resets);
    case Deliver(_, _) => DeliveriesKeep(log, w, e);
    case DeliverBare(_, _) => DeliveriesKeep(log, w, e);
    case Ack(g, t) => AckKeeps(log, w, g, t);
    case BareAck(g) => BareAckKeeps(log, w, g);
    case CommitReturns(applied, outcome) => CommitReturnsKeeps(log, w, applied, outcome);
    case Nack(_, _, _) => NacksKeep(log, w, e);
    case BareNack(_, _) => NacksKeep(log, w, e);
    case SeekReturns(ok) => SeekReturnsKeeps(log, w, ok);
    case Disconnect => DisconnectKeeps(log, w);
  }

  lemma {:induction false} RunOk(log: Log, trace: seq<Event>)
    ensures WorldOk(log, Run(log, trace))
  {
    if trace != [] {
      RunOk(log, trace[..|trace| - 1]);
      StepKeeps(log, Run(log, trace[..|trace| - 1]), trace[|trace| - 1]);
    }
  }

  lemma RunStep(log: Log, trace: seq<Event>, k: nat)
    requires k < |trace|
    ensures Run(log, trace[..k + 1]) == Step(log, Run(log, trace[..k]), trace[k])
  {
    assert trace[..k + 1][..k] == trace[..k];
    hide Step;
  }

  // ----- At least once -----

  /** The commit, if any, that the step of `e` hands to the broker. */
  function Issued(w: World, e: Event): Option<(Partition, Commit)> {
    match e
    case Ack(g, t) =>
      if w.outstanding == Idle && g < |w.sessions| && AckBegin(w.sessions[g].h, t).1.SendCommit?
      then Some((t.tp, Commit(AckBegin(w.sessions[g].h, t).1.watermark, OriginOf(w.sessions[g], t.tp))))
      else None
    case BareAck(g) =>
      if w.outstanding == Idle && g < |w.sessions| && w.sessions[g].h.legacy.Some?
         && !BareAckRefused(w.sessions[g].h, w.sessions[g].h.legacy.value)
      then
        var r := w.sessions[g].h.legacy.value;
        Some((r.tp, Commit(r.offset + 1, OriginOf(w.sessions[g], r.tp))))
      else None
    case _ => None
  }

  /** The step of `e` acknowledges record `k`: with a token for it that is active, or
      through the legacy slot. */
  predicate Acknowledges(w: World, e: Event, k: Key) {
    match e
    case Ack(g, t) => w.outstanding == Idle && g < |w.sessions| && KeyOf(t) == k && IsActive(w.sessions[g].h, t)
    case BareAck(g) => w.outstanding == Idle && g < |w.sessions| && w.sessions[g].h.legacy == Some(k)
    case _ => false
  }

  lemma {:induction false} AckedMeansAcknowledged(log: Log, trace: seq<Event>, k: Key)
    requires k in Run(log, trace).acked
    ensures exists i :: 0 <= i < |trace| && Acknowledges(Run(log, trace[..i]), trace[i], k)
  {
    hide AckBegin, PopToken, PopLegacy, Restart;
    var last := |trace| - 1;
    var before := trace[..last];
    if k in Run(log, before).acked {
      AckedMeansAcknowledged(log, before, k);
      var i :| 0 <= i < |before| && Acknowledges(Run(log, before[..i]), before[i], k);
      assert before[..i] == trace[..i];
      assert Acknowledges(Run(log, trace[..i]), trace[i], k);
    } else {
      AckedGrows(log, Run(log, before), trace[last], k);
      assert Acknowledges(Run(log, trace[..last]), trace[last], k);
    }
  }

  lemma AckedGrows(log: Log, w: World, e: Event, k: Key)
    requires k in Step(log, w, e).acked && k !in w.acked
    ensures Acknowledges(w, e, k)
  {
  }

  lemma IssuedIsCovered(log: Log, w: World, e: Event)
    requires WorldOk(log, w) && Issued(w, e).Some?
    ensures var (tp, c) := Issued(w, e).value;
            c.origin <= c.offset && Covered(log, Step(log, w, e).acked, tp, c.origin, c.offset)
  {
    hide SessionOk, AckBegin;
    if e.Ack? {
      AckBeginKeeps(log, w.acked, w.lastAttempt, w.sessions[e.session], e.token);
    } else {
      BareAckCovers(log, w.acked, w.lastAttempt, w.sessions[e.session]);
    }
  }

  /** At-least-once delivery.  Whenever the backend hands a commit to the broker, every
      record of the log from the origin of that consumption to the committed offset was
      acknowledged at or before that step, by a token that was active then or through
      the legacy slot. */
  lemma AtLeastOnce(log: Log, trace: seq<Event>, at: nat, o: nat)
    requires at < |trace| && Issued(Run(log, trace[..at]), trace[at]).Some?
    requires var (tp, c) := Issued(Run(log, trace[..at]), trace[at]).value;
             c.origin <= o < c.offset && Key(tp, o) in log
    ensures exists i :: 0 <= i <= at &&
              Acknowledges(Run(log, trace[..i]), trace[i], Key(Issued(Run(log, trace[..at]), trace[at]).value.0, o))
  {
    hide Step, Issued, Acknowledges;
    var w := Run(log, trace[..at]);
    var (tp, c) := Issued(w, trace[at]).value;
    RunOk(log, trace[..at]);
    IssuedIsCovered(log, w, trace[at]);
    var upTo := trace[..at + 1];
    assert upTo[..|upTo| - 1] == trace[..at];
    AckedMeansAcknowledged(log, upTo, Key(tp, o));
    var i :| 0 <= i < |upTo| && Acknowledges(Run(log, upTo[..i]), upTo[i], Key(tp, o));
    assert upTo[..i] == trace[..i];
  }

  predicate IsLost(w: World, g: nat, tp: Partition) {
    g < |w.sessions| && tp in w.sessions[g].cursors && w.sessions[g].cursors[tp].lost
  }

  /** A legacy record of the partition is dropped without a seek. */
  predicate DropsUnowned(w: World, e: Event, g: nat, tp: Partition) {
    && e == SeekReturns(true)
    && w.outstanding.BareNacking? && w.outstanding.session == g && w.outstanding.record.tp == tp && !w.outstanding.owned
  }

  lemma ReturnLoses(log: Log, w: World, e: Event, g: nat, tp: Partition)
    requires (e.CommitReturns? || e.SeekReturns?) && IsLost(Step(log, w, e), g, tp)
    ensures IsLost(w, g, tp) || DropsUnowned(w, e, g, tp)
  {
    hide AckSettle, AckRestore, BareAckSettle, BareNackSettle, Finish, IsActive, Handles.HasActive;
  }

  lemma NothingElseLoses(log: Log, w: World, e: Event, g: nat, tp: Partition)
    requires !e.CommitReturns? && !e.SeekReturns? && IsLost(Step(log, w, e), g, tp)
    ensures IsLost(w, g, tp)
  {
    hide AckBegin, PopToken, PopLegacy, Advance, IsActive, BareAckRefused, NextRecord, CommitStep, SeekStep;
  }

  /** A partition is lost only by a bare nack that finds it unassigned. */
  lemma {:induction false} LostOnlyUnowned(log: Log, trace: seq<Event>, g: nat, tp: Partition)
    requires IsLost(Run(log, trace), g, tp)
    ensures exists i :: 0 <= i < |trace| && DropsUnowned(Run(log, trace[..i]), trace[i], g, tp)
  {
    hide Step, IsLost, DropsUnowned;
    if trace == [] {
      NoneLost(g, tp);
    } else {
      var before, e := trace[..|trace| - 1], trace[|trace| - 1];
      if e.CommitReturns? || e.SeekReturns? {
        ReturnLoses(log, Run(log, before), e, g, tp);
      } else {
        NothingElseLoses(log, Run(log, before), e, g, tp);
      }
      if IsLost(Run(log, before), g, tp) {
        LostOnlyUnowned(log, before, g, tp);
        var i :| 0 <= i < |before| && DropsUnowned(Run(log, before[..i]), before[i], g, tp);
        assert before[..i] == trace[..i];
      }
    }
  }

  lemma NoneLost(g: nat, tp: Partition)
    ensures !IsLost(Start, g, tp)
  {
  }

  /** Nothing is lost.  A record of an assigned partition that has not been
      acknowledged is in flight, or the consumer has yet to fetch it, unless a bare nack
      found the partition unassigned. */
  lemma NothingIsLost(log: Log, trace: seq<Event>, tp: Partition, o: nat)
    requires var w := Run(log, trace);
             && w.live.Some? && w.live.value < |w.sessions|
             && tp in w.sessions[w.live.value].cursors
             && w.sessions[w.live.value].cursors[tp].origin <= o
             && Key(tp, o) in log && Key(tp, o) !in w.acked
    ensures var g := Run(log, trace).live.value;
            var s := Run(log, trace).sessions[g];
            || o in s.h.Pending(tp) || s.cursors[tp].position <= o
            || exists i :: 0 <= i < |trace| && DropsUnowned(Run(log, trace[..i]), trace[i], g, tp)
  {
    var w := Run(log, trace);
    var s := w.sessions[w.live.value];
    RunOk(log, trace);
    assert SessionOk(log, w.acked, w.lastAttempt, s);
    assert CursorOk(log, w.acked, tp, s.cursors[tp], s.h.Pending(tp));
    if s.cursors[tp].lost { LostOnlyUnowned(log, trace, w.live.value, tp); }
  }

  /** An offset in flight, from the origin of the committed consumption on, lies below the
      committed offset only if its record has been acknowledged already. */
  lemma BelowCommittedIsAcked(log: Log, trace: seq<Event>, g: nat, tp: Partition, o: nat)
    requires g < |Run(log, trace).sessions| && o in Run(log, trace).sessions[g].h.Pending(tp)
    requires tp in Run(log, trace).committed && Run(log, trace).committed[tp].origin <= o
    ensures o < Run(log, trace).committed[tp].offset ==> Key(tp, o) in Run(log, trace).acked
  {
    RunOk(log, trace);
    var w := Run(log, trace);
    var s := w.sessions[g];
    assert SessionOk(log, w.acked, w.lastAttempt, s);
    assert CohortOk(log, w.acked, tp, s.cursors[tp], s.h.inFlight[tp], s.h.watermarks[tp], s.h.highWater[tp]);
    assert Covered(log, w.acked, tp, w.committed[tp].origin, w.committed[tp].offset);
  }

  /** After an assignment change, and so after a reconnect, the consumer restarts at or
      before every record that has not been acknowledged. */
  lemma RestartRedelivers(log: Log, trace: seq<Event>, g: nat, resets: map<Partition, nat>, tp: Partition, o: nat)
    requires Run(log, trace).live == Some(g) && tp in resets
    requires var c := Restart(Run(log, trace).committed, resets)[tp];
             c.origin <= o && Key(tp, o) in log && Key(tp, o) !in Run(log, trace).acked
    ensures var w := Run(log, trace + [Assigned(g, resets)]);
            g < |w.sessions| && tp in w.sessions[g].cursors && w.sessions[g].cursors[tp].position <= o
  {
    hide SessionOk;
    var w := Run(log, trace);
    RunOk(log, trace);
    var longer := trace + [Assigned(g, resets)];
    assert longer[..|longer| - 1] == trace;
    assert CommittedOk(log, w.acked, w.committed);
    if tp in w.committed {
      assert Covered(log, w.acked, tp, w.committed[tp].origin, w.committed[tp].offset);
    }
  }

  // ----- One reset offset per partition -----

  /** Every reset of the trace, as under `auto_offset_reset=earliest`, names the same
      offset of a partition. */
  predicate ResetsAt(e: Event, start: Partition -> nat) {
    e.Assigned? ==> forall tp :: tp in e.resets ==> e.resets[tp] == start(tp)
  }

  predicate CursorsAt(cursors: map<Partition, Cursor>, start: Partition -> nat) {
    forall tp :: tp in cursors ==> cursors[tp].origin == start(tp)
  }

  ghost predicate OriginsAt(w: World, start: Partition -> nat) {
    && (forall g :: 0 <= g < |w.sessions| ==> CursorsAt(w.sessions[g].cursors, start))
    && (forall tp :: tp in w.committed ==> w.committed[tp].origin == start(tp))
    && (w.outstanding.Acking? ==> w.outstanding.origin == start(w.outstanding.token.tp))
    && (w.outstanding.BareAcking? ==> w.outstanding.origin == start(w.outstanding.record.tp))
  }

  lemma OriginsSettle(log: Log, w: World, e: Event, start: Partition -> nat)
    requires WorldOk(log, w) && OriginsAt(w, start) && (e.Ack? || e.BareAck?)
    ensures OriginsAt(Step(log, w, e), start)
  {
    hide SessionOk, CommittedOk, LivesOk, AckBegin;
    var g := e.session;
    if w.outstanding == Idle && g < |w.sessions| {
      var s := w.sessions[g];
      if e.Ack? {
        StaleIsInert(s.h, e.token);
        if IsActive(s.h, e.token) { TokenInRange(log, w.acked, w.lastAttempt, s, e.token); }
      } else if s.h.legacy.Some? {
        LegacyInRange(log, w.acked, w.lastAttempt, s);
      }
    }
  }

  lemma OriginsDeliver(log: Log, w: World, e: Event, start: Partition -> nat)
    requires WorldOk(log, w) && OriginsAt(w, start) && ResetsAt(e, start)
    requires e.Connect? || e.Assigned? || e.Deliver? || e.DeliverBare? || e.Disconnect?
    ensures OriginsAt(Step(log, w, e), start)
  {
    hide SessionOk, CommittedOk, LivesOk, PopToken, PopLegacy, Advance, NextRecord;
  }

  lemma OriginsReturn(log: Log, w: World, e: Event, start: Partition -> nat)
    requires OriginsAt(w, start) && (e.CommitReturns? || e.SeekReturns?)
    ensures OriginsAt(Step(log, w, e), start)
  {
    hide AckSettle, AckRestore, BareAckSettle, BareNackSettle, Finish, IsActive;
  }

  lemma OriginsSeek(log: Log, w: World, e: Event, start: Partition -> nat)
    requires OriginsAt(w, start) && (e.Nack? || e.BareNack?)
    ensures OriginsAt(Step(log, w, e), start)
  {
    hide IsActive;
  }

  lemma OriginsStep(log: Log, w: World, e: Event, start: Partition -> nat)
    requires WorldOk(log, w) && OriginsAt(w, start) && ResetsAt(e, start)
    ensures OriginsAt(Step(log, w, e), start)
  {
    hide WorldOk, OriginsAt, Step, ResetsAt;
    match e
    case Ack(_, _) => OriginsSettle(log, w, e, start);
    case BareAck(_) => OriginsSettle(log, w, e, start);
    case CommitReturns(_, _) => OriginsReturn(log, w, e, start);
    case SeekReturns(_) => OriginsReturn(log, w, e, start);
    case Nack(_, _, _) => OriginsSeek(log, w, e, start);
    case BareNack(_, _) => OriginsSeek(log, w, e, start);
    case _ => OriginsDeliver(log, w, e, start);
  }

  lemma {:induction false} OriginsRun(log: Log, trace: seq<Event>, start: Partition -> nat)
    requires forall i :: 0 <= i < |trace| ==> ResetsAt(trace[i], start)
    ensures OriginsAt(Run(log, trace), start)
  {
    if trace != [] {
      hide Step, OriginsAt;
      OriginsRun(log, trace[..|trace| - 1], start);
      RunOk(log, trace[..|trace| - 1]);
      OriginsStep(log, Run(log, trace[..|trace| - 1]), trace[|trace| - 1], start);
    } else {
    }
  }

  /** Under one reset offset per partition, at-least-once holds from that offset on. */
  lemma AtLeastOnceFromStart(log: Log, trace: seq<Event>, start: Partition -> nat, at: nat, o: nat)
    requires forall i :: 0 <= i < |trace| ==> ResetsAt(trace[i], start)
    requires at < |trace| && Issued(Run(log, trace[..at]), trace[at]).Some?
    requires var (tp, c) := Issued(Run(log, trace[..at]), trace[at]).value;
             start(tp) <= o < c.offset && Key(tp, o) in log
    ensures exists i :: 0 <= i <= at &&
              Acknowledges(Run(log, trace[..i]), trace[i], Key(Issued(Run(log, trace[..at]), trace[at]).value.0, o))
  {
    hide AckBegin, Run;
    var w := Run(log, trace[..at]);
    OriginsRun(log, trace[..at], start);
    RunOk(log, trace[..at]);
    IssuedOrigin(log, w, trace[at], start);
    AtLeastOnce(log, trace, at, o);
  }

  lemma IssuedOrigin(log: Log, w: World, e: Event, start: Partition -> nat)
    requires WorldOk(log, w) && OriginsAt(w, start) && Issued(w, e).Some?
    ensures Issued(w, e).value.1.origin == start(Issued(w, e).value.0)
  {
    hide SessionOk;
    var s := w.sessions[e.session];
    if e.Ack? {
      TokenInRange(log, w.acked, w.lastAttempt, s, e.token);
    } else {
      LegacyInRange(log, w.acked, w.lastAttempt, s);
    }
  }

  // ----- Fencing -----

  /** From `h` to `k` attempts are only forgotten, or added under `number`. */
  ghost predicate Forgets(h: Handles, k: Handles, number: nat) {
    && k.generation == h.generation
    && (k.epoch == h.epoch || k.attempts == map[])
    && forall key :: key in k.attempts ==>
         k.attempts[key] == number || (key in h.attempts && k.attempts[key] == h.attempts[key])
  }

  lemma SettlementsForget(s: Session, t: Token, wm: nat, outcome: Outcome, number: nat)
    ensures Forgets(s.h, AckBegin(s.h, t).0, number)
    ensures Forgets(s.h, Finish(s.h, t), number)
    ensures Forgets(s.h, CommitReturned(s, t, wm, outcome).h, number)
  {
    hide AckBegin, CommitReturned, Finish;
    AckBeginForgets(s.h, t, number);
    FinishForgets(s.h, t, number);
    CommitForgets(s, t, wm, outcome, number);
  }

  lemma FinishForgets(h: Handles, t: Token, number: nat)
    ensures Forgets(h, Finish(h, t), number)
  {
  }

  lemma AckBeginForgets(h: Handles, t: Token, number: nat)
    ensures Forgets(h, AckBegin(h, t).0, number)
  {
    hide Watermark, Handles.Pending, Handles.HasActive, PruneIfDrained;
    PruneSame(Finish(h, t), t.tp);
    if t.offset in h.Pending(t.tp) && IsActive(h, t) {
      var base := if t.tp in h.watermarks then h.watermarks[t.tp] else t.offset;
      PruneSame(Finish(h.(inFlight := h.inFlight[t.tp := h.Pending(t.tp) - {t.offset}],
                          watermarks := h.watermarks[t.tp := base]), t), t.tp);
    }
  }

  lemma PruneSame(h: Handles, tp: Partition)
    ensures var p := PruneIfDrained(h, tp);
            p.attempts == h.attempts && p.generation == h.generation && p.epoch == h.epoch
  {
  }

  lemma CommitForgets(s: Session, t: Token, wm: nat, outcome: Outcome, number: nat)
    ensures Forgets(s.h, CommitReturned(s, t, wm, outcome).h, number)
  {
    hide Handles.Pending;
  }

  lemma BareSettlementsForget(s: Session, r: Key, tracked: bool, owned: bool, number: nat)
    ensures Forgets(s.h, BareAckSettle(s.h, r, tracked), number)
    ensures Forgets(s.h, BareNackReturned(s, r, owned).h, number)
  {
    BareSettlesSameIdentity(s.h, r, tracked);
  }

  lemma DeliveriesForget(s: Session, tp: Partition, offset: nat, epoch: nat, number: nat)
    ensures Forgets(s.h, PopToken(s.h, tp, offset, number), number)
    ensures Forgets(s.h, PopLegacy(s.h, tp, offset), number)
    ensures Forgets(s.h, Advance(s.h, epoch), number)
  {
    PopSameIdentity(s.h, tp, offset, number);
  }

  /** The ways in which the step of `e` can change the handles of session `g`. */
  predicate Change(w: World, e: Event, g: nat, s: Session, h: Handles) {
    || h == s.h
    || (e.Assigned? && h == Advance(s.h, w.epoch + 1))
    || (e.Deliver? && h == PopToken(s.h, e.tp, e.offset, w.lastAttempt + 1))
    || (e.DeliverBare? && h == PopLegacy(s.h, e.tp, e.offset))
    || (e.Ack? && h == AckBegin(s.h, e.token).0)
    || (e.Disconnect? && h == s.h.(retired := true))
    || (e.CommitReturns? && w.outstanding.Acking? && w.outstanding.session == g
        && h == CommitReturned(s, w.outstanding.token, w.outstanding.watermark, e.outcome).h)
    || (e.CommitReturns? && w.outstanding.BareAcking?
        && h == BareAckSettle(s.h, w.outstanding.record, w.outstanding.tracked))
    || (e.SeekReturns? && w.outstanding.Nacking? && h == Finish(s.h, w.outstanding.token))
    || (e.SeekReturns? && w.outstanding.BareNacking?
        && h == BareNackReturned(s, w.outstanding.record, w.outstanding.owned).h)
  }

  ghost predicate ChangesOne(w: World, e: Event, g: nat, n: World)
    requires g < |w.sessions|
  {
    g < |n.sessions| && w.lastAttempt <= n.lastAttempt && Change(w, e, g, w.sessions[g], n.sessions[g].h)
  }

  lemma ReturnChanges(log: Log, w: World, e: Event, g: nat)
    requires g < |w.sessions| && (e.CommitReturns? || e.SeekReturns?)
    ensures ChangesOne(w, e, g, Step(log, w, e))
  {
    hide IsActive, CommitReturned, BareAckSettle, Finish, BareNackReturned, AckBegin, PopToken, PopLegacy, Advance;
  }

  lemma BeginChanges(log: Log, w: World, e: Event, g: nat)
    requires g < |w.sessions| && (e.Ack? || e.BareAck? || e.Nack? || e.BareNack?)
    ensures ChangesOne(w, e, g, Step(log, w, e))
  {
    hide IsActive, BareAckRefused, OriginOf;
    hide CommitReturned, BareAckSettle, Finish, BareNackReturned, AckBegin, PopToken, PopLegacy, Advance;
  }

  lemma HowASessionChanges(log: Log, w: World, e: Event, g: nat)
    requires g < |w.sessions|
    ensures var n := Step(log, w, e);
            g < |n.sessions| && w.lastAttempt <= n.lastAttempt && Change(w, e, g, w.sessions[g], n.sessions[g].h)
  {
    if e.CommitReturns? || e.SeekReturns? {
      hide Step, Change;
      ReturnChanges(log, w, e, g);
    } else if e.Ack? || e.BareAck? || e.Nack? || e.BareNack? {
      hide Step, Change;
      BeginChanges(log, w, e, g);
    } else {
      hide NextRecord, Restart, Moved, CommitStep, SeekStep, AckStep, NackStep, BareAckStep, BareNackStep;
      hide AckBegin, PopToken, PopLegacy, Advance, CommitReturned, BareAckSettle, Finish, BareNackReturned;
    }
  }

  /** A step only forgets attempts, or adds one under a number never used before. */
  lemma AttemptsOnlyForgotten(log: Log, w: World, e: Event, g: nat)
    requires g < |w.sessions|
    ensures var n := Step(log, w, e);
            && g < |n.sessions| && w.lastAttempt <= n.lastAttempt
            && Forgets(w.sessions[g].h, n.sessions[g].h, w.lastAttempt + 1)
  {
    hide Step, AckBegin, PopToken, PopLegacy, Advance, CommitReturned, BareAckSettle, Finish, BareNackReturned;
    HowASessionChanges(log, w, e, g);
    var number := w.lastAttempt + 1;
    var s := w.sessions[g];
    match e
    case Assigned(_, _) => DeliveriesForget(s, Partition("", 0), 0, w.epoch + 1, number);
    case Deliver(tp, o) => DeliveriesForget(s, tp, o, 0, number);
    case DeliverBare(tp, o) => DeliveriesForget(s, tp, o, 0, number);
    case Ack(_, t) => SettlementsForget(s, t, 0, Interrupted, number);
    case CommitReturns(_, outcome) =>
      if w.outstanding.Acking? {
        SettlementsForget(s, w.outstanding.token, w.outstanding.watermark, outcome, number);
      } else if w.outstanding.BareAcking? {
        BareSettlementsForget(s, w.outstanding.record, w.outstanding.tracked, true, number);
      }
    case SeekReturns(_) =>
      if w.outstanding.Nacking? {
        SettlementsForget(s, w.outstanding.token, 0, Interrupted, number);
      } else if w.outstanding.BareNacking? {
        BareSettlementsForget(s, w.outstanding.record, true, w.outstanding.owned, number);
      }
    case _ =>
  }

  /** Once a token is superseded, settled, or outlived by its assignment, it stays dead
      whatever happens next: acknowledging or rejecting it changes nothing and sends
      neither a commit nor a seek. */
  lemma {:induction false} FencedForever(log: Log, trace: seq<Event>, more: seq<Event>, g: nat, t: Token)
    requires g < |Run(log, trace).sessions|
    requires !IsActive(Run(log, trace).sessions[g].h, t) && t.attempt <= Run(log, trace).lastAttempt
    ensures g < |Run(log, trace + more).sessions| && !IsActive(Run(log, trace + more).sessions[g].h, t)
    ensures t.attempt <= Run(log, trace + more).lastAttempt
    ensures Step(log, Run(log, trace + more), Ack(g, t)) == Run(log, trace + more)
    ensures forall owned :: Step(log, Run(log, trace + more), Nack(g, t, owned)) == Run(log, trace + more)
  {
    hide Step, Run, Forgets, IsActive;
    if more == [] {
      assert trace + more == trace;
    } else {
      var less := more[..|more| - 1];
      var e := more[|more| - 1];
      FencedForever(log, trace, less, g, t);
      assert trace + more == trace + less + [e];
      RunSnoc(log, trace + less, e);
      var w := Run(log, trace + less);
      AttemptsOnlyForgotten(log, w, e, g);
      DeadStaysDead(w.sessions[g].h, Step(log, w, e).sessions[g].h, t, w.lastAttempt + 1);
    }
    DeadIsInert(log, Run(log, trace + more), g, t);
  }

  lemma DeadIsInert(log: Log, w: World, g: nat, t: Token)
    requires g < |w.sessions| && !IsActive(w.sessions[g].h, t)
    ensures Step(log, w, Ack(g, t)) == w
    ensures forall owned :: Step(log, w, Nack(g, t, owned)) == w
  {
    StaleIsInert(w.sessions[g].h, t);
    assert Step(log, w, Nack(g, t, true)) == w && Step(log, w, Nack(g, t, false)) == w;
  }

  lemma RunSnoc(log: Log, trace: seq<Event>, e: Event)
    ensures Run(log, trace + [e]) == Step(log, Run(log, trace), e)
  {
    hide Step;
    assert (trace + [e])[..|trace + [e]| - 1] == trace;
  }

  lemma DeadStaysDead(h: Handles, k: Handles, t: Token, number: nat)
    requires Forgets(h, k, number) && !IsActive(h, t) && t.attempt < number
    ensures !IsActive(k, t)
  {
  }

  /** A token is active in at most one session, the one of its generation. */
  lemma ActiveInOneSession(log: Log, trace: seq<Event>, g: nat, i: nat, t: Token)
    requires g < |Run(log, trace).sessions| && i < |Run(log, trace).sessions|
    requires IsActive(Run(log, trace).sessions[g].h, t) && IsActive(Run(log, trace).sessions[i].h, t)
    ensures g == i
  {
    RunOk(log, trace);
    hide Run;
  }

  // ----- Retry -----

  /** A commit that fails with a Kafka error, with nothing in between, leaves the
      delivery state as it was before the acknowledgement, so the same token can be
      acknowledged again. */
  lemma FailedCommitRestores(log: Log, trace: seq<Event>, g: nat, t: Token, applied: bool)
    requires Issued(Run(log, trace), Ack(g, t)).Some?
    ensures var w := Run(log, trace);
            var n := Step(log, Step(log, w, Ack(g, t)), CommitReturns(applied, KafkaError));
            && n.outstanding == Idle
            && |n.sessions| == |w.sessions|
            && n.sessions[g].h == w.sessions[g].h
            && n.sessions[g].cursors == w.sessions[g].cursors
            && (forall i :: 0 <= i < |w.sessions| && i != g ==> n.sessions[i] == w.sessions[i])
            && Issued(n, Ack(g, t)) == Issued(w, Ack(g, t))
  {
    var w := Run(log, trace);
    RunOk(log, trace);
    DomainsOf(log, w, g);
    RestoreUndoes(w.sessions[g].h, t);
    FailedCommitStep(log, w, g, t, applied);
  }

  lemma FailedCommitStep(log: Log, w: World, g: nat, t: Token, applied: bool)
    requires Issued(w, Ack(g, t)).Some?
    requires AckRestore(AckBegin(w.sessions[g].h, t).0, t) == w.sessions[g].h
    ensures var n := Step(log, Step(log, w, Ack(g, t)), CommitReturns(applied, KafkaError));
            && n.outstanding == Idle
            && |n.sessions| == |w.sessions|
            && n.sessions[g].h == w.sessions[g].h
            && n.sessions[g].cursors == w.sessions[g].cursors
            && (forall i :: 0 <= i < |w.sessions| && i != g ==> n.sessions[i] == w.sessions[i])
            && Issued(n, Ack(g, t)) == Issued(w, Ack(g, t))
  {
    hide AckBegin, AckRestore, IsActive;
    var s := w.sessions[g];
    var (h, plan) := AckBegin(s.h, t);
    var out := s.(h := h, unsettled := s.unsettled + {t.attempt});
    assert Step(log, w, Ack(g, t)).sessions == w.sessions[g := out];
    assert CommitReturned(out, t, plan.watermark, KafkaError).h == s.h;
  }

  lemma RestoreUndoes(h: Handles, t: Token)
    requires h.inFlight.Keys == h.watermarks.Keys == h.highWater.Keys
    requires AckBegin(h, t).1.SendCommit?
    ensures AckRestore(AckBegin(h, t).0, t) == h
  {
    hide Watermark;
    var removed := AckBegin(h, t).0;
    assert h.watermarks[t.tp := h.watermarks[t.tp]] == h.watermarks;
    assert removed.watermarks == h.watermarks;
    assert (h.inFlight[t.tp] - {t.offset}) + {t.offset} == h.inFlight[t.tp];
    assert AckRestore(removed, t).inFlight == h.inFlight;
  }

  lemma DomainsOf(log: Log, w: World, g: nat)
    requires WorldOk(log, w) && g < |w.sessions|
    ensures DomainsAgree(w.sessions[g])
  {
    assert SessionOk(log, w.acked, w.lastAttempt, w.sessions[g]);
  }

  // ----- Quiet states -----

  predicate Settling(g: nat, attempt: nat, o: Outstanding) {
    o.Acking? && o.session == g && o.token.attempt == attempt
  }

  /** No attempt of the session is unsettled except the one whose commit is out, and
      that one is either still active or was fenced together with all others. */
  predicate Quiet(g: nat, s: Session, o: Outstanding) {
    && (forall k :: k in s.h.attempts ==> s.h.attempts[k] !in s.unsettled || Settling(g, s.h.attempts[k], o))
    && (o.Acking? && o.session == g ==> IsActive(s.h, o.token) || s.unsettled == {})
  }

  lemma UnsettledOtherwise(log: Log, w: World, e: Event, g: nat)
    requires g < |w.sessions| && !e.Ack? && !e.CommitReturns?
    ensures var n := Step(log, w, e);
            && g < |n.sessions|
            && (n.outstanding == w.outstanding || (!w.outstanding.Acking? && !n.outstanding.Acking?))
            && (n.sessions[g].unsettled == {} ||
                (n.sessions[g].unsettled == w.sessions[g].unsettled &&
                 (w.outstanding.Acking? && IsActive(w.sessions[g].h, w.outstanding.token) ==>
                     IsActive(n.sessions[g].h, w.outstanding.token))))
  {
    hide NextRecord, Restart, Moved, PopToken, PopLegacy, Advance, Finish, BareNackSettle;
  }

  lemma QuietOtherwise(log: Log, w: World, e: Event, g: nat)
    requires WorldOk(log, w) && g < |w.sessions| && !e.Ack? && !e.CommitReturns?
    requires Quiet(g, w.sessions[g], w.outstanding)
    ensures g < |Step(log, w, e).sessions| && Quiet(g, Step(log, w, e).sessions[g], Step(log, w, e).outstanding)
  {
    var s := w.sessions[g];
    assert SessionOk(log, w.acked, w.lastAttempt, s);
    assert forall a :: a in s.unsettled ==> a <= w.lastAttempt;
    hide WorldOk, SessionOk, Step;
    UnsettledOtherwise(log, w, e, g);
    AttemptsOnlyForgotten(log, w, e, g);
  }

  /** The unsettled attempts are not in the table. */
  predicate NoneUnsettled(h: Handles, unsettled: set<nat>) {
    forall k :: k in h.attempts ==> h.attempts[k] !in unsettled
  }

  lemma QuietAckAt(log: Log, acked: set<Key>, last: nat, s: Session, t: Token)
    requires SessionOk(log, acked, last, s) && NoneUnsettled(s.h, s.unsettled)
    ensures NoneUnsettled(AckBegin(s.h, t).0, s.unsettled)
    ensures AckBegin(s.h, t).1.SendCommit? ==> IsActive(AckBegin(s.h, t).0, t)
  {
    AckBeginForgets(s.h, t, last + 1);
    assert forall a :: a in s.unsettled ==> a <= last;
    AckBeginKeeps(log, acked, last, s, t);
    hide SessionOk, AckBegin, AckingOk, Covered;
  }

  lemma QuietAck(log: Log, w: World, g: nat, i: nat, t: Token)
    requires WorldOk(log, w) && i < |w.sessions| && Quiet(i, w.sessions[i], w.outstanding)
    ensures var n := Step(log, w, Ack(g, t)); i < |n.sessions| && Quiet(i, n.sessions[i], n.outstanding)
  {
    hide SessionOk, LivesOk, CommittedOk, OutstandingOk, AckBegin, IsActive;
    if w.outstanding == Idle {
      QuietAckAt(log, w.acked, w.lastAttempt, w.sessions[i], t);
    }
  }

  lemma QuietCommitAt(s: Session, t: Token, wm: nat, origin: nat, outcome: Outcome, g: nat)
    requires Quiet(g, s, Acking(g, t, wm, origin)) && outcome != Interrupted
    ensures var n := CommitReturned(s, t, wm, outcome);
            NoneUnsettled(n.h, n.unsettled)
  {
    CommitForgets(s, t, wm, outcome, t.attempt);
    hide AckSettle, AckRestore;
  }

  lemma QuietCommit(log: Log, w: World, applied: bool, outcome: Outcome, g: nat)
    requires WorldOk(log, w) && g < |w.sessions| && outcome != Interrupted
    requires Quiet(g, w.sessions[g], w.outstanding)
    ensures var n := Step(log, w, CommitReturns(applied, outcome));
            g < |n.sessions| && Quiet(g, n.sessions[g], n.outstanding)
  {
    hide WorldOk, CommitReturned, BareAckSettle, IsActive;
    var s := w.sessions[g];
    match w.outstanding
    case Acking(i, t, wm, origin) =>
      if i == g { QuietCommitAt(s, t, wm, origin, outcome, g); }
    case BareAcking(i, r, _, _, tracked) =>
      BareAckKeepsAttempts(s.h, r, tracked);
    case _ =>
  }

  lemma BareAckKeepsAttempts(h: Handles, r: Key, tracked: bool)
    ensures BareAckSettle(h, r, tracked).attempts == h.attempts
  {
  }

  /** Unless a commit was interrupted, every active attempt's offset is in flight
      whenever no settlement is under way. */
  lemma {:induction false} AttemptsAreInFlight(log: Log, trace: seq<Event>, g: nat)
    requires forall i :: 0 <= i < |trace| ==> trace[i].CommitReturns? ==> trace[i].outcome != Interrupted
    requires g < |Run(log, trace).sessions|
    ensures Quiet(g, Run(log, trace).sessions[g], Run(log, trace).outstanding)
    ensures Run(log, trace).outstanding == Idle ==>
              var h := Run(log, trace).sessions[g].h;
              forall k :: k in h.attempts ==> k.offset in h.Pending(k.tp)
  {
    var w := Run(log, trace);
    if trace != [] {
      var last := |trace| - 1;
      var before := Run(log, trace[..last]);
      var e := trace[last];
      RunOk(log, trace[..last]);
      assert w == Step(log, before, e);
      hide Step, Run, Quiet, WorldOk;
      if g < |before.sessions| {
        AttemptsAreInFlight(log, trace[..last], g);
        match e
        case Ack(i, t) => QuietAck(log, before, i, g, t);
        case CommitReturns(applied, outcome) => QuietCommit(log, before, applied, outcome, g);
        case _ => QuietOtherwise(log, before, e, g);
      } else {
        NewSessionIsEmpty(log, before, e, g);
      }
    }
    RunOk(log, trace);
    if w.outstanding == Idle {
      QuietMeansInFlight(log, w, g);
    }
  }

  lemma NewSessionIsEmpty(log: Log, w: World, e: Event, g: nat)
    requires WorldOk(log, w) && |w.sessions| <= g < |Step(log, w, e).sessions|
    ensures Quiet(g, Step(log, w, e).sessions[g], Step(log, w, e).outstanding)
  {
    hide SessionsOk, LivesOk, CommittedOk, Covered, NextRecord, AckingOk, IsActive, BareAckRefused;
    hide AckBegin, PopToken, PopLegacy, CommitReturned, BareAckSettle, Finish, BareNackReturned;
  }

  lemma QuietMeansInFlight(log: Log, w: World, g: nat)
    requires WorldOk(log, w) && g < |w.sessions| && Quiet(g, w.sessions[g], w.outstanding) && w.outstanding == Idle
    ensures var h := w.sessions[g].h;
            forall k :: k in h.attempts ==> k.offset in h.Pending(k.tp)
  {
    var s := w.sessions[g];
    assert SessionOk(log, w.acked, w.lastAttempt, s);
    forall k | k in s.h.attempts ensures k.offset in s.h.Pending(k.tp) {
      assert AttemptOk(w.acked, w.lastAttempt, k, s.h.attempts[k], s.cursors[k.tp], s.h.Pending(k.tp), s.unsettled);
    }
  }

  /** An interrupted commit is the exception: the attempt stays active with its offset
      out of flight, and acknowledging the same token again settles it without another
      commit. */
  lemma InterruptedCommitStrands(log: Log, w: World, g: nat, t: Token, applied: bool)
    requires WorldOk(log, w) && Issued(w, Ack(g, t)).Some?
    ensures var n := Step(log, Step(log, w, Ack(g, t)), CommitReturns(applied, Interrupted));
            && n.outstanding == Idle && g < |n.sessions|
            && IsActive(n.sessions[g].h, t) && t.offset !in n.sessions[g].h.Pending(t.tp)
            && Issued(n, Ack(g, t)).None?
            && !IsActive(Step(log, n, Ack(g, t)).sessions[g].h, t)
  {
    AckBeginKeeps(log, w.acked, w.lastAttempt, w.sessions[g], t);
    SecondAckSettles(AckBegin(w.sessions[g].h, t).0, t);
    hide WorldOk, SessionOk, Covered;
    InterruptedStep(log, w, g, t, applied);
  }

  lemma InterruptedStep(log: Log, w: World, g: nat, t: Token, applied: bool)
    requires Issued(w, Ack(g, t)).Some?
    requires var h := AckBegin(w.sessions[g].h, t).0;
             IsActive(h, t) && AckBegin(h, t).1 == AlreadyRemoved && !IsActive(AckBegin(h, t).0, t)
    ensures var n := Step(log, Step(log, w, Ack(g, t)), CommitReturns(applied, Interrupted));
            && n.outstanding == Idle && g < |n.sessions|
            && n.sessions[g].h == AckBegin(w.sessions[g].h, t).0
            && Issued(n, Ack(g, t)).None?
            && !IsActive(Step(log, n, Ack(g, t)).sessions[g].h, t)
  {
    hide AckBegin, IsActive;
    var s := w.sessions[g];
    var (h, plan) := AckBegin(s.h, t);
    assert Step(log, w, Ack(g, t)).sessions == w.sessions[g := s.(h := h, unsettled := s.unsettled + {t.attempt})];
  }

  lemma SecondAckSettles(h: Handles, t: Token)
    requires IsActive(h, t)
    ensures t.offset !in h.Pending(t.tp) ==> AckBegin(h, t).1 == AlreadyRemoved && !IsActive(AckBegin(h, t).0, t)
  {
    hide Watermark;
  }

  /** In every reachable state the index by partition agrees with the attempt table of
      each session, and no two active attempts share a number. */
  lemma IndexAlwaysAgrees(log: Log, trace: seq<Event>, g: nat)
    requires g < |Run(log, trace).sessions|
    ensures IndexAgrees(Run(log, trace).sessions[g].h)
  {
    RunOk(log, trace);
    assert SessionOk(log, Run(log, trace).acked, Run(log, trace).lastAttempt, Run(log, trace).sessions[g]);
  }
}
