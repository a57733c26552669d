/** How an offset in flight comes to lie below the committed offset of its partition, step
    by step and in concrete runs. */
module KafkaInFlight {
  import opened Options
  import opened KafkaDelivery
  import opened KafkaProtocol
  import opened KafkaRuns
  import opened KafkaRegress

  predicate Below(w: World, g: nat, tp: Partition, o: nat) {
    && g < |w.sessions| && o in w.sessions[g].h.Pending(tp)
    && tp in w.committed && o < w.committed[tp].offset
  }

  /** The commit that is out. */
  function Sent(w: World): Option<(Partition, nat)> {
    match w.outstanding
    case Acking(_, t, watermark, _) => Some((t.tp, watermark))
    case BareAcking(_, r, _, _, _) => Some((r.tp, r.offset + 1))
    case _ => None
  }

  /** The committed offset that the broker has once the event is over. */
  function CommittedAfter(w: World, e: Event, tp: Partition): Option<nat> {
    if e.CommitReturns? && (e.applied || e.outcome == Succeeded) && Sent(w).Some? && Sent(w).value.0 == tp
    then Some(Sent(w).value.1)
    else if tp in w.committed then Some(w.committed[tp].offset)
    else None
  }

  ghost predicate Delivers(log: Log, w: World, e: Event, g: nat, tp: Partition, o: nat) {
    (e == Deliver(tp, o) || e == DeliverBare(tp, o)) && w.live == Some(g) && IsNext(log, w, tp, o)
  }

  /** The commit of this record failed and its offset is put back. */
  predicate Restores(w: World, e: Event, g: nat, tp: Partition, o: nat) {
    && e.CommitReturns? && e.outcome == KafkaError
    && w.outstanding.Acking? && w.outstanding.session == g < |w.sessions|
    && w.outstanding.token.tp == tp && w.outstanding.token.offset == o
    && IsActive(w.sessions[g].h, w.outstanding.token)
  }

  /** The commit of this record, acknowledged without a token, succeeded and takes it out
      of flight. */
  predicate TakesOut(w: World, e: Event, g: nat, tp: Partition, o: nat) {
    && e.CommitReturns? && e.outcome == Succeeded
    && w.outstanding.BareAcking? && w.outstanding.session == g < |w.sessions|
    && w.outstanding.tracked && w.outstanding.record == Key(tp, o)
    && w.outstanding.epoch == w.sessions[g].h.epoch
  }

  /** The event leaves `o` in flight below the committed offset: it delivers it, or puts it
      back, or it is a commit coming back while `o` is in flight and stays so. */
  ghost predicate GoesBelow(log: Log, w: World, e: Event, g: nat, tp: Partition, o: nat)
    requires g < |w.sessions|
  {
    && CommittedAfter(w, e, tp).Some? && o < CommittedAfter(w, e, tp).value
    && (|| Delivers(log, w, e, g, tp, o)
        || Restores(w, e, g, tp, o)
        || (e.CommitReturns? && o in w.sessions[g].h.Pending(tp) && !TakesOut(w, e, g, tp, o)))
  }

  // ----- What each step does to the offsets in flight -----

  lemma PopPending(h: Handles, tp: Partition, offset: nat, attempt: nat, q: Partition)
    ensures PopToken(h, tp, offset, attempt).Pending(q) == if q == tp then h.Pending(q) + {offset} else h.Pending(q)
    ensures PopLegacy(h, tp, offset).Pending(q) == if q == tp then h.Pending(q) + {offset} else h.Pending(q)
  {
  }

  lemma PrunePending(h: Handles, tp: Partition, q: Partition)
    ensures PruneIfDrained(h, tp).Pending(q) == h.Pending(q)
  {
  }

  lemma FinishPending(h: Handles, t: Token, q: Partition)
    ensures Finish(h, t).Pending(q) == h.Pending(q)
  {
  }

  lemma AckPending(h: Handles, t: Token, q: Partition)
    ensures AckBegin(h, t).0.Pending(q)
         == if IsActive(h, t) && q == t.tp then h.Pending(q) - {t.offset} else h.Pending(q)
  {
    hide Finish, PruneIfDrained, Watermark;
    FinishPending(h, t, q);
    PrunePending(Finish(h, t), t.tp, q);
    var base := if t.tp in h.watermarks then h.watermarks[t.tp] else t.offset;
    var removed := h.(inFlight := h.inFlight[t.tp := h.Pending(t.tp) - {t.offset}],
                      watermarks := h.watermarks[t.tp := base]);
    FinishPending(removed, t, q);
    PrunePending(Finish(removed, t), t.tp, q);
  }

  lemma ReturnPending(s: Session, t: Token, wm: nat, outcome: Outcome, q: Partition)
    requires t.tp in s.h.inFlight || !IsActive(s.h, t)
    ensures CommitReturned(s, t, wm, outcome).h.Pending(q)
         == if outcome == KafkaError && IsActive(s.h, t) && q == t.tp then s.h.Pending(q) + {t.offset}
             else s.h.Pending(q)
  {
    hide Finish, PruneIfDrained, IsActive;
    var h := s.h.(watermarks := s.h.watermarks[t.tp := wm]);
    FinishPending(h, t, q);
    PrunePending(Finish(h, t), t.tp, q);
  }

  lemma BareSettlePending(h: Handles, r: Key, tracked: bool, q: Partition)
    ensures BareAckSettle(h, r, tracked).Pending(q)
         == if tracked && q == r.tp then h.Pending(q) - {r.offset} else h.Pending(q)
  {
    hide PruneIfDrained;
    if r.tp in h.inFlight {
      var one := h.(inFlight := h.inFlight[r.tp := h.inFlight[r.tp] - {r.offset}]);
      PrunePending(one, r.tp, q);
      PrunePending(one.(legacy := None), r.tp, q);
    }
  }

  lemma BareNackPending(h: Handles, r: Key, q: Partition)
    ensures BareNackSettle(h, r).Pending(q)
         == if q == r.tp && !h.HasActive(q) then h.Pending(q) - {r.offset} else h.Pending(q)
  {
    hide PruneIfDrained;
    if r.tp in h.inFlight {
      PrunePending(h.(legacy := None, inFlight := h.inFlight[r.tp := h.inFlight[r.tp] - {r.offset}]), r.tp, q);
    }
  }

  // ----- The exact step -----

  lemma DeliveryStep(log: Log, w: World, e: Event, g: nat, tp: Partition, o: nat)
    requires g < |w.sessions| && (e.Deliver? || e.DeliverBare?)
    ensures var n := Step(log, w, e);
            && g < |n.sessions| && n.committed == w.committed
            && (o in n.sessions[g].h.Pending(tp) <==> o in w.sessions[g].h.Pending(tp) || Delivers(log, w, e, g, tp, o))
  {
    hide PopToken, PopLegacy, Handles.Pending, Moved, NextRecord;
    PopPending(w.sessions[g].h, e.tp, e.offset, w.lastAttempt + 1, tp);
  }

  lemma OtherStep(log: Log, w: World, e: Event, g: nat, tp: Partition)
    requires g < |w.sessions| && !e.Deliver? && !e.DeliverBare? && !e.CommitReturns?
    ensures var n := Step(log, w, e);
            g < |n.sessions| && n.committed == w.committed && n.sessions[g].h.Pending(tp) <= w.sessions[g].h.Pending(tp)
  {
    hide AckBegin, Finish, BareNackSettle, Handles.HasActive, IsActive, BareAckRefused, CommitStep;
    var h := w.sessions[g].h;
    if e.Ack? {
      AckPending(h, e.token, tp);
    } else if e.SeekReturns? && w.outstanding.Nacking? {
      FinishPending(h, w.outstanding.token, tp);
    } else if e.SeekReturns? && w.outstanding.BareNacking? {
      BareNackPending(h, w.outstanding.record, tp);
    }
  }

  lemma ReturnStep(log: Log, w: World, e: Event, g: nat, tp: Partition, o: nat)
    requires WorldOk(log, w) && g < |w.sessions| && e.CommitReturns?
    ensures var n := Step(log, w, e);
            && g < |n.sessions|
            && (tp in n.committed <==> CommittedAfter(w, e, tp).Some?)
            && (tp in n.committed ==> n.committed[tp].offset == CommittedAfter(w, e, tp).value)
            && (o in n.sessions[g].h.Pending(tp) <==>
                  (o in w.sessions[g].h.Pending(tp) && !TakesOut(w, e, g, tp, o)) || Restores(w, e, g, tp, o))
  {
    hide SessionOk, CommittedOk, LivesOk, Covered, CommitReturned, BareAckSettle, IsActive, Handles.Pending,
        Handles.HasActive;
    match w.outstanding
    case Acking(q, t, wm, _) => ReturnPending(w.sessions[q], t, wm, e.outcome, tp);
    case BareAcking(q, r, _, _, tracked) => BareSettlePending(w.sessions[q].h, r, tracked, tp);
    case _ =>
  }

  /** Exactly the step at which an offset in flight comes to lie below the committed one:
      it is delivered there, or its failed commit puts it back there, or a commit above it
      is recorded while it is in flight. */
  lemma BelowBeginsIff(log: Log, w: World, e: Event, g: nat, tp: Partition, o: nat)
    requires WorldOk(log, w) && g < |w.sessions| && !Below(w, g, tp, o)
    ensures Below(Step(log, w, e), g, tp, o) <==> GoesBelow(log, w, e, g, tp, o)
  {
    hide WorldOk, Step, Delivers, Restores, TakesOut;
    NotOfThisKind(log, w, e, g, tp, o);
    if e.Deliver? || e.DeliverBare? {
      DeliveryStep(log, w, e, g, tp, o);
    } else if e.CommitReturns? {
      ReturnStep(log, w, e, g, tp, o);
    } else {
      OtherStep(log, w, e, g, tp);
    }
  }

  lemma NotOfThisKind(log: Log, w: World, e: Event, g: nat, tp: Partition, o: nat)
    ensures Delivers(log, w, e, g, tp, o) ==> e.Deliver? || e.DeliverBare?
    ensures Restores(w, e, g, tp, o) || TakesOut(w, e, g, tp, o) ==> e.CommitReturns?
  {
  }

  // ----- Two runs without a rewind -----

  /** The first record is delivered and acknowledged, and its commit is out. */
  function SentTrace(): seq<Event> {
    Trace()[..3] + [Ack(0, TokenOf(0, 1))]
  }

  function SentStage(): World {
    Before(Cohort({}, 0, 1, map[At(0) := 1], {1}), 1, 1, 1, Acking(0, TokenOf(0, 1), 1, 0), map[], {At(0)}, {1})
  }

  lemma SentRun()
    ensures Run(ThreeRecords(), SentTrace()) == SentStage()
  {
    hide Run, Step;
    Reaches(3);
    SentStep();
    RunLast(Trace()[..3], Ack(0, TokenOf(0, 1)));
  }

  lemma SentStep()
    ensures Step(ThreeRecords(), Stage(3), Ack(0, TokenOf(0, 1))) == SentStage()
  {
    var pending: set<nat> := {0};
    assert pending - {0} == {};
    assert Watermark({}, 1, 1) == 1 && Watermark({}, 0, 1) == 1;
    Same(Step(ThreeRecords(), Stage(3), Ack(0, TokenOf(0, 1))), SentStage());
  }

  lemma RunLast(trace: seq<Event>, e: Event)
    ensures Run(ThreeRecords(), trace + [e]) == Step(ThreeRecords(), Run(ThreeRecords(), trace), e)
  {
    hide Step;
    assert (trace + [e])[..|trace + [e]| - 1] == trace;
  }

  function FailedStage(): World {
    Before(Cohort({0}, 0, 1, map[At(0) := 1], {1}), 1, 1, 1, Idle, map[TP := Commit(1, 0)], {At(0)}, {})
  }

  lemma FailedStep()
    ensures Step(ThreeRecords(), SentStage(), CommitReturns(true, KafkaError)) == FailedStage()
  {
    var unsettled: set<nat> := {1};
    assert unsettled - {1} == {};
    Same(Step(ThreeRecords(), SentStage(), CommitReturns(true, KafkaError)), FailedStage());
  }

  /** A commit that fails although the broker has recorded it puts its record back in
      flight below the committed offset; nothing was ever rejected. */
  lemma FailedCommitBelow()
    ensures Below(Run(ThreeRecords(), SentTrace() + [CommitReturns(true, KafkaError)]), 0, TP, 0)
  {
    hide Run, Step;
    SentRun();
    FailedStep();
    RunLast(SentTrace(), CommitReturns(true, KafkaError));
  }

  /** The states after an assignment change that lands during the commit. */
  function Reassigned(out: Outstanding, committed: map<Partition, Commit>): World {
    World(1, 2, 1, [Session(Fresh(1, 2), map[TP := Cursor(0, 0, 0, None, false)], {})], Some(0), out, committed,
          {At(0)})
  }

  function RebalanceEvents(): seq<Event> {
    SentTrace() + [Assigned(0, map[TP := 0])] + [CommitReturns(true, Succeeded)] + [Deliver(TP, 0)]
  }

  lemma ReassignStep()
    ensures Step(ThreeRecords(), SentStage(), Assigned(0, map[TP := 0]))
         == Reassigned(Acking(0, TokenOf(0, 1), 1, 0), map[])
  {
    Same(Step(ThreeRecords(), SentStage(), Assigned(0, map[TP := 0])),
         Reassigned(Acking(0, TokenOf(0, 1), 1, 0), map[]));
  }

  lemma LateCommitStep()
    ensures Step(ThreeRecords(), Reassigned(Acking(0, TokenOf(0, 1), 1, 0), map[]), CommitReturns(true, Succeeded))
         == Reassigned(Idle, map[TP := Commit(1, 0)])
  {
    Same(Step(ThreeRecords(), Reassigned(Acking(0, TokenOf(0, 1), 1, 0), map[]), CommitReturns(true, Succeeded)),
         Reassigned(Idle, map[TP := Commit(1, 0)]));
  }

  lemma DeliversAgain(w: World)
    requires w == Reassigned(Idle, map[TP := Commit(1, 0)])
    ensures Below(Step(ThreeRecords(), w, Deliver(TP, 0)), 0, TP, 0)
  {
    NextInLog(w, 0);
    hide IsNext, ThreeRecords;
    DeliverGoes(w, 0, PopToken(w.sessions[0].h, TP, 0, 2));
  }

  /** So does a delivery after a rebalance that landed during the commit: the consumer
      restarted from what was committed before it. */
  lemma RebalanceBelow()
    ensures Below(Run(ThreeRecords(), RebalanceEvents()), 0, TP, 0)
  {
    hide Run, Step;
    SentRun();
    ReassignStep();
    RunLast(SentTrace(), Assigned(0, map[TP := 0]));
    LateCommitStep();
    RunLast(SentTrace() + [Assigned(0, map[TP := 0])], CommitReturns(true, Succeeded));
    DeliversAgain(Reassigned(Idle, map[TP := Commit(1, 0)]));
    RunLast(SentTrace() + [Assigned(0, map[TP := 0])] + [CommitReturns(true, Succeeded)], Deliver(TP, 0));
  }
}
