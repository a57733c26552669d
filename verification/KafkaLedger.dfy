/** What each step does to the delivery maps of a session, entry by entry: which tokens are
    active, which offsets are in flight, where a cohort stands, and what an acknowledgement
    commits. */
module KafkaLedger {
  import opened Options
  import opened KafkaDelivery
  import opened KafkaProtocol
  import opened KafkaRuns
  import opened KafkaInFlight

  // ----- What an acknowledgement commits -----

  /** `m` is the least offset from the base on that is still in flight, or the frontier if
      there is none. */
  predicate IsLeast(m: nat, pending: set<nat>, base: nat, high: nat) {
    && base <= m <= high && (m in pending || m == high)
    && forall o: nat :: base <= o < m ==> o !in pending
  }

  lemma OnlyOneLeast(m: nat, k: nat, pending: set<nat>, base: nat, high: nat)
    requires IsLeast(m, pending, base, high) && IsLeast(k, pending, base, high)
    ensures m == k
  {
  }

  lemma CohortOfToken(log: Log, w: World, g: nat, t: Token)
    requires WorldOk(log, w) && g < |w.sessions| && t.offset in w.sessions[g].h.Pending(t.tp)
    ensures var h := w.sessions[g].h;
            t.tp in h.inFlight && t.tp in h.watermarks && t.tp in h.highWater && h.watermarks[t.tp] <= h.highWater[t.tp]
  {
    var s := w.sessions[g];
    assert SessionOk(log, w.acked, w.lastAttempt, s);
    assert CohortOk(log, w.acked, t.tp, s.cursors[t.tp], s.h.inFlight[t.tp], s.h.watermarks[t.tp], s.h.highWater[t.tp]);
  }

  /** What acknowledging a token commits, exactly.  In every run, when no settlement is out
      and the token is active with its offset in flight, let `m` be the least other offset in
      flight from the cohort's base on, or the frontier if there is none: the base is
      committed up to `m` if that moves it, and otherwise nothing is sent. */
  lemma AckCommitsExactly(log: Log, trace: seq<Event>, g: nat, t: Token, m: nat)
    requires var w := Run(log, trace);
             && w.outstanding == Idle && g < |w.sessions| && IsActive(w.sessions[g].h, t)
             && t.offset in w.sessions[g].h.Pending(t.tp)
    ensures var w := Run(log, trace);
            var h := w.sessions[g].h;
            && t.tp in h.watermarks && t.tp in h.highWater
            && (exists k :: IsLeast(k, h.Pending(t.tp) - {t.offset}, h.watermarks[t.tp], h.highWater[t.tp]))
            && (IsLeast(m, h.Pending(t.tp) - {t.offset}, h.watermarks[t.tp], h.highWater[t.tp]) ==>
                  Issued(w, Ack(g, t))
                  == if m > h.watermarks[t.tp] then Some((t.tp, Commit(m, OriginOf(w.sessions[g], t.tp)))) else None)
  {
    hide Run, WorldOk;
    RunOk(log, trace);
    var w := Run(log, trace);
    var h := w.sessions[g].h;
    CohortOfToken(log, w, g, t);
    var rest, base, high := h.Pending(t.tp) - {t.offset}, h.watermarks[t.tp], h.highWater[t.tp];
    var walked := Watermark(rest, base, high);
    assert IsLeast(walked, rest, base, high);
    if IsLeast(m, rest, base, high) { OnlyOneLeast(m, walked, rest, base, high); }
    hide IsLeast, PruneIfDrained, Finish;
  }

  /** In every other case an acknowledgement with a token commits nothing. */
  lemma AckCommitsNothing(log: Log, trace: seq<Event>, g: nat, t: Token)
    requires var w := Run(log, trace);
             || w.outstanding != Idle || g >= |w.sessions| || !IsActive(w.sessions[g].h, t)
             || t.offset !in w.sessions[g].h.Pending(t.tp)
    ensures Issued(Run(log, trace), Ack(g, t)) == None
  {
    hide Run, Watermark;
  }

  lemma ActiveIff(log: Log, w: World, g: nat, tp: Partition)
    requires WorldOk(log, w) && g < |w.sessions|
    ensures w.sessions[g].h.HasActive(tp) <==> exists t: Token :: IsActive(w.sessions[g].h, t) && t.tp == tp
  {
    hide SessionOk, CommittedOk, LivesOk, IndexAgrees, Handles.HasActive;
    var h := w.sessions[g].h;
    SessionOkSays(log, w.acked, w.lastAttempt, w.sessions[g]);
    ActiveMeansAttempt(h, tp);
    if h.HasActive(tp) {
      var k :| k in h.attempts && k.tp == tp;
      var t := Token(k.tp, k.offset, h.generation, h.epoch, h.attempts[k]);
      assert KeyOf(t) == k && IsActive(h, t);
    } else {
      forall t: Token | IsActive(h, t) ensures t.tp != tp {
        assert KeyOf(t) in h.attempts;
      }
    }
  }

  /** What acknowledging without a token commits, exactly.  In every run, when no settlement
      is out, the record in the legacy slot is committed if and only if no token of its
      partition is active and nothing but that record is in flight there. */
  lemma BareAckCommitsExactly(log: Log, trace: seq<Event>, g: nat)
    requires Run(log, trace).outstanding == Idle && g < |Run(log, trace).sessions|
    ensures var w := Run(log, trace);
            var h := w.sessions[g].h;
            Issued(w, BareAck(g))
            == if h.legacy.Some? && (forall t: Token :: IsActive(h, t) ==> t.tp != h.legacy.value.tp)
                  && (h.legacy.value.tp in h.inFlight ==> h.Pending(h.legacy.value.tp) == {h.legacy.value.offset})
               then
                 Some((h.legacy.value.tp,
                       Commit(h.legacy.value.offset + 1, OriginOf(w.sessions[g], h.legacy.value.tp))))
               else None
  {
    hide Run, WorldOk, IsActive;
    RunOk(log, trace);
    var h := Run(log, trace).sessions[g].h;
    if h.legacy.Some? { ActiveIff(log, Run(log, trace), g, h.legacy.value.tp); }
    hide Handles.HasActive;
  }

  // ----- Which section ran -----

  ghost function HandlesAfter(log: Log, w: World, e: Event, g: nat): Handles
    requires g < |w.sessions|
  {
    var s := w.sessions[g];
    var h := s.h;
    match e
    case Assigned(q, _) => if q == g && w.live == Some(g) then Advance(h, w.epoch + 1) else h
    case Deliver(tp, o) =>
      if w.live == Some(g) && IsNext(log, w, tp, o) then PopToken(h, tp, o, w.lastAttempt + 1) else h
    case DeliverBare(tp, o) => if w.live == Some(g) && IsNext(log, w, tp, o) then PopLegacy(h, tp, o) else h
    case Ack(q, t) => if q == g && w.outstanding == Idle then AckBegin(h, t).0 else h
    case CommitReturns(_, outcome) =>
      (match w.outstanding
       case Acking(q, t, wm, _) => if q == g then CommitReturned(s, t, wm, outcome).h else h
       case BareAcking(q, r, epoch, _, tracked) =>
         if q == g && outcome == Succeeded && h.epoch == epoch then BareAckSettle(h, r, tracked) else h
       case _ => h)
    case SeekReturns(ok) =>
      (match w.outstanding
       case Nacking(q, t) => if q == g && ok && !h.retired && IsActive(h, t) then Finish(h, t) else h
       case BareNacking(q, r, epoch, _) =>
         if q == g && ok && !h.retired && h.epoch == epoch && h.legacy == Some(r) then BareNackSettle(h, r) else h
       case _ => h)
    case Disconnect => if w.live == Some(g) then h.(retired := true) else h
    case _ => h
  }

  predicate OutInRange(w: World) {
    w.outstanding != Idle ==> w.outstanding.session < |w.sessions|
  }

  lemma ReturnHandles(log: Log, w: World, e: Event, g: nat)
    requires g < |w.sessions| && (e.CommitReturns? || e.SeekReturns?)
    requires OutInRange(w)
    ensures g < |Step(log, w, e).sessions| && Step(log, w, e).sessions[g].h == HandlesAfter(log, w, e, g)
  {
    hide IsActive, CommitReturned, BareAckSettle, Finish, BareNackSettle, Handles.HasActive;
  }

  lemma BeginHandles(log: Log, w: World, e: Event, g: nat)
    requires g < |w.sessions| && (e.Ack? || e.BareAck? || e.Nack? || e.BareNack?)
    ensures g < |Step(log, w, e).sessions| && Step(log, w, e).sessions[g].h == HandlesAfter(log, w, e, g)
  {
    hide IsActive, BareAckRefused, OriginOf, AckBegin, Sought;
    if e.Ack? {
      hide NackStep, BareNackStep, BareAckStep;
      StaleIsInert(w.sessions[g].h, e.token);
    } else if e.BareAck? {
      hide NackStep, BareNackStep, AckStep;
    } else {
      SoughtHandles(w.sessions[g]);
      hide AckStep, BareAckStep;
    }
  }

  lemma SoughtHandles(s: Session)
    ensures forall tp, o :: Sought(s, tp, o).h == s.h
  {
  }

  lemma OtherHandles(log: Log, w: World, e: Event, g: nat)
    requires g < |w.sessions| && (w.live.Some? ==> w.live.value < |w.sessions|)
    requires !e.Ack? && !e.BareAck? && !e.Nack? && !e.BareNack? && !e.CommitReturns? && !e.SeekReturns?
    ensures g < |Step(log, w, e).sessions| && Step(log, w, e).sessions[g].h == HandlesAfter(log, w, e, g)
  {
    hide NextRecord, Restart, Moved, PopToken, PopLegacy, Advance;
  }

  lemma InRange(log: Log, w: World)
    requires WorldOk(log, w)
    ensures w.live.Some? ==> w.live.value < |w.sessions|
    ensures OutInRange(w)
  {
    hide SessionOk, Covered, AckingOk;
  }

  lemma HandlesStep(log: Log, w: World, e: Event, g: nat)
    requires WorldOk(log, w) && g < |w.sessions|
    ensures g < |Step(log, w, e).sessions| && Step(log, w, e).sessions[g].h == HandlesAfter(log, w, e, g)
  {
    hide WorldOk, Step, HandlesAfter;
    InRange(log, w);
    if e.CommitReturns? || e.SeekReturns? {
      ReturnHandles(log, w, e, g);
    } else if e.Ack? || e.BareAck? || e.Nack? || e.BareNack? {
      BeginHandles(log, w, e, g);
    } else {
      OtherHandles(log, w, e, g);
    }
  }

  // ----- Counters and the settlement that is out -----

  ghost predicate Fetched(log: Log, w: World, e: Event) {
    e.Deliver? && IsNext(log, w, e.tp, e.offset)
  }

  predicate Reassigned(w: World, e: Event) {
    e.Assigned? && w.live == Some(e.session) && e.session < |w.sessions|
  }

  /** What the counters say after a step, and which session is live. */
  lemma CountersStep(log: Log, w: World, e: Event)
    requires w.live.Some? ==> w.live.value < |w.sessions|
    ensures var n := Step(log, w, e);
            var connects := e == Connect && w.live.None?;
            && n.generation == (if connects || e == Disconnect then w.generation + 1 else w.generation)
            && n.epoch == (if Reassigned(w, e) || e == Disconnect then w.epoch + 1 else w.epoch)
            && n.lastAttempt == (if Fetched(log, w, e) then w.lastAttempt + 1 else w.lastAttempt)
            && |n.sessions| == (if connects then |w.sessions| + 1 else |w.sessions|)
            && n.live == (if connects then Some(|w.sessions|) else if e == Disconnect then None else w.live)
            && (connects ==> n.sessions[|w.sessions|].h == Fresh(w.generation + 1, w.epoch))
  {
    match e
    case CommitReturns(_, _) => hide CommitReturned, BareAckSettle;
    case SeekReturns(_) => hide IsActive, Finish, BareNackReturned;
    case Ack(_, _) => hide AckBegin, OriginOf;
    case BareAck(_) => hide BareAckRefused, OriginOf;
    case Nack(_, _, _) => hide IsActive, Sought;
    case BareNack(_, _) => hide Sought;
    case _ => hide NextRecord, Restart, Moved, PopToken, PopLegacy, Advance;
  }

  /** The settlement that is out after a step: the commit an acknowledgement sent, with
      whether its legacy record was in flight; the rejection that went out; nothing once
      either has returned. */
  function OutAfter(w: World, e: Event): Outstanding {
    match e
    case Ack(g, t) =>
      (match Issued(w, e)
       case Some((_, c)) => Acking(g, t, c.offset, c.origin)
       case None => w.outstanding)
    case BareAck(g) =>
      if Issued(w, e).None? then w.outstanding
      else
        var h := w.sessions[g].h;
        var r := h.legacy.value;
        BareAcking(g, r, h.epoch, Issued(w, e).value.1.origin, r.tp in h.inFlight)
    case Nack(g, t, _) =>
      if w.outstanding == Idle && g < |w.sessions| && !w.sessions[g].h.retired && IsActive(w.sessions[g].h, t)
      then Nacking(g, t) else w.outstanding
    case BareNack(g, owned) =>
      if w.outstanding == Idle && g < |w.sessions| && !w.sessions[g].h.retired && w.sessions[g].h.legacy.Some?
      then BareNacking(g, w.sessions[g].h.legacy.value, w.sessions[g].h.epoch, owned) else w.outstanding
    case CommitReturns(_, _) => if w.outstanding.Acking? || w.outstanding.BareAcking? then Idle else w.outstanding
    case SeekReturns(_) => if w.outstanding.Nacking? || w.outstanding.BareNacking? then Idle else w.outstanding
    case _ => w.outstanding
  }

  lemma AckOut(log: Log, w: World, g: nat, t: Token)
    ensures Step(log, w, Ack(g, t)).outstanding == OutAfter(w, Ack(g, t))
  {
    hide AckBegin, OriginOf;
  }

  lemma BareAckOut(log: Log, w: World, g: nat)
    ensures Step(log, w, BareAck(g)).outstanding == OutAfter(w, BareAck(g))
  {
    hide BareAckRefused, OriginOf;
  }

  lemma NackOut(log: Log, w: World, e: Event)
    requires e.Nack? || e.BareNack?
    ensures Step(log, w, e).outstanding == OutAfter(w, e)
  {
    hide IsActive, Sought;
  }

  lemma ReturnOut(log: Log, w: World, e: Event)
    requires e.CommitReturns? || e.SeekReturns?
    requires OutInRange(w)
    ensures Step(log, w, e).outstanding == OutAfter(w, e)
  {
    hide CommitReturned, BareAckSettle, IsActive, Finish, BareNackReturned;
  }

  lemma OtherOut(log: Log, w: World, e: Event)
    requires !e.Ack? && !e.BareAck? && !e.Nack? && !e.BareNack? && !e.CommitReturns? && !e.SeekReturns?
    ensures Step(log, w, e).outstanding == OutAfter(w, e)
  {
    hide NextRecord, Restart, Moved, PopToken, PopLegacy, Advance;
  }

  lemma OutstandingExactly(log: Log, w: World, e: Event)
    requires WorldOk(log, w)
    ensures Step(log, w, e).outstanding == OutAfter(w, e)
  {
    hide WorldOk, Step, OutAfter;
    InRange(log, w);
    match e
    case CommitReturns(_, _) => ReturnOut(log, w, e);
    case SeekReturns(_) => ReturnOut(log, w, e);
    case Ack(g, t) => AckOut(log, w, g, t);
    case BareAck(g) => BareAckOut(log, w, g);
    case Nack(_, _, _) => NackOut(log, w, e);
    case BareNack(_, _) => NackOut(log, w, e);
    case _ => OtherOut(log, w, e);
  }

  // ----- Tokens -----

  ghost predicate Begins(log: Log, w: World, e: Event, g: nat, t: Token)
    requires g < |w.sessions|
  {
    && e.Deliver? && Delivers(log, w, e, g, t.tp, t.offset)
    && t.generation == w.sessions[g].h.generation && t.epoch == w.sessions[g].h.epoch && t.attempt == w.lastAttempt + 1
  }

  /** The token's assignment ends, its record is delivered again, or it is settled: by an
      acknowledgement that sends no commit, by a commit that succeeds, or by a seek. */
  ghost predicate Ends(log: Log, w: World, e: Event, g: nat, t: Token)
    requires g < |w.sessions|
  {
    || (e.Assigned? && e.session == g && w.live == Some(g))
    || (e.Deliver? && Delivers(log, w, e, g, t.tp, t.offset))
    || (e == Ack(g, t) && w.outstanding == Idle && Issued(w, e).None?)
    || (e.CommitReturns? && e.outcome == Succeeded && w.outstanding.Acking?
        && w.outstanding.session == g && w.outstanding.token == t)
    || (e == SeekReturns(true) && w.outstanding == Nacking(g, t) && !w.sessions[g].h.retired)
  }

  lemma FinishActive(h: Handles, u: Token, t: Token)
    requires IsActive(h, u)
    ensures IsActive(Finish(h, u), t) <==> IsActive(h, t) && t != u
  {
  }

  lemma PruneActive(h: Handles, tp: Partition, t: Token)
    ensures IsActive(PruneIfDrained(h, tp), t) <==> IsActive(h, t)
  {
  }

  lemma MapsActive(h: Handles, inFlight: map<Partition, set<nat>>, watermarks: map<Partition, nat>, t: Token)
    ensures IsActive(h.(inFlight := inFlight, watermarks := watermarks), t) <==> IsActive(h, t)
  {
  }

  lemma AckActive(h: Handles, u: Token, t: Token)
    ensures IsActive(AckBegin(h, u).0, t) <==> IsActive(h, t) && !(t == u && !AckBegin(h, u).1.SendCommit?)
  {
    hide Finish, PruneIfDrained, IsActive, Watermark, Handles.Pending;
    if IsActive(h, u) {
      var base := if u.tp in h.watermarks then h.watermarks[u.tp] else u.offset;
      var inFlight := h.inFlight[u.tp := h.Pending(u.tp) - {u.offset}];
      var removed := h.(inFlight := inFlight, watermarks := h.watermarks[u.tp := base]);
      MapsActive(h, inFlight, h.watermarks[u.tp := base], t);
      MapsActive(h, inFlight, h.watermarks[u.tp := base], u);
      FinishActive(h, u, t);
      FinishActive(removed, u, t);
      PruneActive(Finish(h, u), u.tp, t);
      PruneActive(Finish(removed, u), u.tp, t);
    }
  }

  lemma ReturnActive(s: Session, u: Token, wm: nat, outcome: Outcome, t: Token)
    ensures IsActive(CommitReturned(s, u, wm, outcome).h, t) <==> IsActive(s.h, t) && !(outcome == Succeeded && t == u)
  {
    hide Finish, PruneIfDrained, IsActive;
    var h := s.h.(watermarks := s.h.watermarks[u.tp := wm]);
    MapsActive(s.h, s.h.inFlight, s.h.watermarks[u.tp := wm], t);
    MapsActive(s.h, s.h.inFlight, s.h.watermarks[u.tp := wm], u);
    if u.tp in s.h.inFlight {
      MapsActive(s.h, s.h.inFlight[u.tp := s.h.inFlight[u.tp] + {u.offset}], s.h.watermarks, t);
    }
    if IsActive(s.h, u) {
      FinishActive(h, u, t);
      PruneActive(Finish(h, u), u.tp, t);
    }
  }

  lemma BareActive(h: Handles, r: Key, tracked: bool, t: Token)
    ensures IsActive(BareAckSettle(h, r, tracked), t) <==> IsActive(h, t)
    ensures IsActive(BareNackSettle(h, r), t) <==> IsActive(h, t)
  {
    hide Handles.HasActive, Handles.Pending;
  }

  lemma PopActive(h: Handles, tp: Partition, o: nat, attempt: nat, t: Token)
    ensures IsActive(PopToken(h, tp, o, attempt), t) <==>
              if Key(tp, o) == KeyOf(t)
              then t.attempt == attempt && t.generation == h.generation && t.epoch == h.epoch
              else IsActive(h, t)
    ensures IsActive(PopLegacy(h, tp, o), t) <==> IsActive(h, t)
    ensures !IsActive(Advance(h, attempt), t)
  {
  }

  lemma AckIssues(w: World, g: nat, t: Token)
    requires w.outstanding == Idle && g < |w.sessions|
    ensures Issued(w, Ack(g, t)).None? <==> !AckBegin(w.sessions[g].h, t).1.SendCommit?
  {
    hide AckBegin;
  }

  lemma OldNumber(log: Log, w: World, g: nat, t: Token)
    requires WorldOk(log, w) && g < |w.sessions| && IsActive(w.sessions[g].h, t)
    ensures t.attempt <= w.lastAttempt
  {
    TokenInRange(log, w.acked, w.lastAttempt, w.sessions[g], t);
    hide SessionOk, CommittedOk, LivesOk;
  }

  /** Exactly which tokens are active after a step: the one it delivers, and those that were
      active and that it does not end. */
  lemma TokensExactly(log: Log, w: World, e: Event, g: nat, t: Token)
    requires WorldOk(log, w) && g < |w.sessions|
    ensures g < |Step(log, w, e).sessions|
    ensures IsActive(Step(log, w, e).sessions[g].h, t) <==>
              Begins(log, w, e, g, t) || (IsActive(w.sessions[g].h, t) && !Ends(log, w, e, g, t))
  {
    hide WorldOk, Step, IsActive, Issued, IsNext;
    hide AckBegin, CommitReturned, BareAckSettle, BareNackSettle, Finish, PopToken, PopLegacy, Advance;
    HandlesStep(log, w, e, g);
    var h := w.sessions[g].h;
    if IsActive(h, t) { OldNumber(log, w, g, t); }
    match e
    case Assigned(_, _) => PopActive(h, t.tp, 0, w.epoch + 1, t);
    case Deliver(tp, o) => PopActive(h, tp, o, w.lastAttempt + 1, t);
    case DeliverBare(tp, o) => PopActive(h, tp, o, 0, t);
    case Ack(_, u) =>
      AckActive(h, u, t);
      if w.outstanding == Idle { AckIssues(w, g, t); }
    case CommitReturns(_, outcome) =>
      if w.outstanding.Acking? {
        ReturnActive(w.sessions[g], w.outstanding.token, w.outstanding.watermark, outcome, t);
      } else if w.outstanding.BareAcking? {
        BareActive(h, w.outstanding.record, w.outstanding.tracked, t);
      }
    case SeekReturns(_) =>
      if w.outstanding.Nacking? {
        if IsActive(h, w.outstanding.token) { FinishActive(h, w.outstanding.token, t); }
      } else if w.outstanding.BareNacking? {
        BareActive(h, w.outstanding.record, true, t);
      }
    case Disconnect => RetiredActive(h, t);
    case _ =>
  }

  lemma RetiredActive(h: Handles, t: Token)
    ensures IsActive(h.(retired := true), t) <==> IsActive(h, t)
  {
  }

  // ----- Whose deliveries these are -----

  lemma IdentityPrune(h: Handles, tp: Partition)
    ensures SameIdentity(h, PruneIfDrained(h, tp))
  {
  }

  lemma IdentityReturn(s: Session, t: Token, wm: nat, outcome: Outcome)
    ensures SameIdentity(s.h, CommitReturned(s, t, wm, outcome).h)
  {
    hide IsActive, Finish, PruneIfDrained;
    var h := s.h.(watermarks := s.h.watermarks[t.tp := wm]);
    FinishSameIdentity(h, t);
    IdentityPrune(Finish(h, t), t.tp);
  }

  /** A session keeps its generation; its assignment changes only by an assignment, and only
      a disconnect retires it. */
  lemma IdentityStep(log: Log, w: World, e: Event, g: nat)
    requires WorldOk(log, w) && g < |w.sessions|
    ensures g < |Step(log, w, e).sessions|
    ensures var h, n := w.sessions[g].h, Step(log, w, e).sessions[g].h;
            && n.generation == h.generation
            && n.epoch == (if Reassigned(w, e) && e.session == g then w.epoch + 1 else h.epoch)
            && n.retired == (h.retired || (e == Disconnect && w.live == Some(g)))
  {
    hide WorldOk, Step, IsActive, IsNext, Handles.Pending, Handles.HasActive;
    hide AckBegin, CommitReturned, BareAckSettle, BareNackSettle, Finish, PopToken, PopLegacy;
    HandlesStep(log, w, e, g);
    var h := w.sessions[g].h;
    match e
    case Deliver(tp, o) => PopSameIdentity(h, tp, o, w.lastAttempt + 1);
    case DeliverBare(tp, o) => PopSameIdentity(h, tp, o, 0);
    case Ack(_, t) => AckBeginSameIdentity(h, t);
    case CommitReturns(_, outcome) =>
      if w.outstanding.Acking? {
        IdentityReturn(w.sessions[g], w.outstanding.token, w.outstanding.watermark, outcome);
      } else if w.outstanding.BareAcking? {
        BareSettlesSameIdentity(h, w.outstanding.record, w.outstanding.tracked);
      }
    case SeekReturns(_) =>
      if w.outstanding.Nacking? {
        FinishSameIdentity(h, w.outstanding.token);
      } else if w.outstanding.BareNacking? {
        BareSettlesSameIdentity(h, w.outstanding.record, true);
      }
    case _ =>
  }

  // ----- Offsets in flight -----

  ghost predicate Enters(log: Log, w: World, e: Event, g: nat, tp: Partition, o: nat) {
    Delivers(log, w, e, g, tp, o) || Restores(w, e, g, tp, o)
  }

  /** The assignment ends, the record is acknowledged with its token, its legacy commit
      succeeds, or its legacy rejection returns while no token is active. */
  ghost predicate Leaves(w: World, e: Event, g: nat, tp: Partition, o: nat)
    requires g < |w.sessions|
  {
    var h := w.sessions[g].h;
    || (e.Assigned? && e.session == g && w.live == Some(g))
    || (e.Ack? && e.session == g && w.outstanding == Idle && IsActive(h, e.token) && KeyOf(e.token) == Key(tp, o))
    || TakesOut(w, e, g, tp, o)
    || (Rejects(w, e, g, Key(tp, o)) && !h.HasActive(tp))
  }

  /** A rejection without a token comes back for the record that the slot still holds. */
  predicate Rejects(w: World, e: Event, g: nat, r: Key)
    requires g < |w.sessions|
  {
    && e == SeekReturns(true) && w.outstanding.BareNacking? && w.outstanding.session == g
    && w.outstanding.record == r && w.sessions[g].h.legacy == Some(r)
    && !w.sessions[g].h.retired && w.sessions[g].h.epoch == w.outstanding.epoch
  }

  lemma AdvancePending(h: Handles, epoch: nat, q: Partition)
    ensures Advance(h, epoch).Pending(q) == {} && h.(retired := true).Pending(q) == h.Pending(q)
  {
  }

  lemma TokenInFlight(log: Log, w: World)
    requires WorldOk(log, w) && w.outstanding.Acking?
    ensures w.outstanding.session < |w.sessions|
    ensures var h, t := w.sessions[w.outstanding.session].h, w.outstanding.token;
            IsActive(h, t) ==> t.tp in h.inFlight && t.offset !in h.Pending(t.tp)
  {
    hide SessionOk, CommittedOk, LivesOk, Covered, IsActive;
  }

  /** Exactly which offsets are in flight after a step. */
  lemma InFlightExactly(log: Log, w: World, e: Event, g: nat, tp: Partition, o: nat)
    requires WorldOk(log, w) && g < |w.sessions|
    ensures g < |Step(log, w, e).sessions|
    ensures o in Step(log, w, e).sessions[g].h.Pending(tp) <==>
              Enters(log, w, e, g, tp, o) || (o in w.sessions[g].h.Pending(tp) && !Leaves(w, e, g, tp, o))
  {
    hide WorldOk, Step, IsActive, IsNext, Handles.Pending, Handles.HasActive;
    hide AckBegin, CommitReturned, BareAckSettle, BareNackSettle, Finish, PopToken, PopLegacy, Advance;
    HandlesStep(log, w, e, g);
    var h := w.sessions[g].h;
    match e
    case Assigned(_, _) => AdvancePending(h, w.epoch + 1, tp);
    case Deliver(q, d) => PopPending(h, q, d, w.lastAttempt + 1, tp);
    case DeliverBare(q, d) => PopPending(h, q, d, 0, tp);
    case Ack(_, u) => AckPending(h, u, tp);
    case CommitReturns(_, outcome) =>
      if w.outstanding.Acking? {
        TokenInFlight(log, w);
        if w.outstanding.session == g {
          ReturnPending(w.sessions[g], w.outstanding.token, w.outstanding.watermark, outcome, tp);
        }
      } else if w.outstanding.BareAcking? {
        BareSettlePending(h, w.outstanding.record, w.outstanding.tracked, tp);
      }
    case SeekReturns(_) =>
      if w.outstanding.Nacking? {
        FinishPending(h, w.outstanding.token, tp);
      } else if w.outstanding.BareNacking? {
        BareNackPending(h, w.outstanding.record, tp);
      }
    case Disconnect => AdvancePending(h, 0, tp);
    case _ =>
  }

  // ----- The legacy slot -----

  lemma FinishSlot(h: Handles, t: Token, tp: Partition)
    ensures Finish(h, t).legacy == h.legacy && PruneIfDrained(h, tp).legacy == h.legacy
  {
  }

  lemma AckSlot(h: Handles, t: Token)
    ensures AckBegin(h, t).0.legacy == h.legacy
  {
    hide Watermark, IsActive, Handles.Pending, Finish, PruneIfDrained;
    var base := if t.tp in h.watermarks then h.watermarks[t.tp] else t.offset;
    var removed := h.(inFlight := h.inFlight[t.tp := h.Pending(t.tp) - {t.offset}],
                      watermarks := h.watermarks[t.tp := base]);
    FinishSlot(h, t, t.tp);
    FinishSlot(Finish(h, t), t, t.tp);
    FinishSlot(removed, t, t.tp);
    FinishSlot(Finish(removed, t), t, t.tp);
  }

  lemma ReturnSlot(s: Session, t: Token, wm: nat, outcome: Outcome)
    ensures CommitReturned(s, t, wm, outcome).h.legacy == s.h.legacy
  {
    hide IsActive, Finish, PruneIfDrained;
    var h := s.h.(watermarks := s.h.watermarks[t.tp := wm]);
    FinishSlot(h, t, t.tp);
    FinishSlot(Finish(h, t), t, t.tp);
  }

  lemma PopSlot(h: Handles, tp: Partition, o: nat, attempt: nat)
    ensures PopToken(h, tp, o, attempt).legacy == h.legacy && PopLegacy(h, tp, o).legacy == Some(Key(tp, o))
    ensures Advance(h, attempt).legacy == None
  {
  }

  lemma BareSlot(h: Handles, r: Key, tracked: bool)
    ensures BareAckSettle(h, r, tracked).legacy == if h.legacy == Some(r) then None else h.legacy
    ensures BareNackSettle(h, r).legacy == None
  {
    hide Handles.Pending, Handles.HasActive;
  }

  /** Exactly what the legacy slot holds after a step: the record popped without a token
      last, until its commit succeeds, its rejection returns, or the assignment ends. */
  lemma SlotExactly(log: Log, w: World, e: Event, g: nat)
    requires WorldOk(log, w) && g < |w.sessions|
    ensures g < |Step(log, w, e).sessions|
    ensures var was := w.sessions[g].h.legacy;
            Step(log, w, e).sessions[g].h.legacy
            == if e.DeliverBare? && Delivers(log, w, e, g, e.tp, e.offset) then Some(Key(e.tp, e.offset))
               else if e.Assigned? && e.session == g && w.live == Some(g) then None
               else if was.Some? && Rejects(w, e, g, was.value) then None
               else if e.CommitReturns? && e.outcome == Succeeded && w.outstanding.BareAcking?
                       && w.outstanding.session == g && w.outstanding.epoch == w.sessions[g].h.epoch
                       && was == Some(w.outstanding.record) then None
               else was
  {
    hide WorldOk, Step, IsActive, IsNext, Handles.Pending, Handles.HasActive;
    hide AckBegin, CommitReturned, BareAckSettle, BareNackSettle, Finish, PopToken, PopLegacy, Advance;
    HandlesStep(log, w, e, g);
    var h := w.sessions[g].h;
    match e
    case Assigned(_, _) => PopSlot(h, Partition("", 0), 0, w.epoch + 1);
    case Deliver(tp, o) => PopSlot(h, tp, o, w.lastAttempt + 1);
    case DeliverBare(tp, o) => PopSlot(h, tp, o, 0);
    case Ack(_, t) => AckSlot(h, t);
    case CommitReturns(_, outcome) =>
      if w.outstanding.Acking? {
        ReturnSlot(w.sessions[g], w.outstanding.token, w.outstanding.watermark, outcome);
      } else if w.outstanding.BareAcking? {
        BareSlot(h, w.outstanding.record, w.outstanding.tracked);
      }
    case SeekReturns(_) =>
      if w.outstanding.Nacking? {
        FinishSlot(h, w.outstanding.token, w.outstanding.token.tp);
      } else if w.outstanding.BareNacking? {
        BareSlot(h, w.outstanding.record, true);
      }
    case _ =>
  }

  // ----- Cohorts -----

  /** The commit base and the pop frontier of the partition's cohort. */
  function CohortOf(h: Handles, tp: Partition): Option<(nat, nat)> {
    if tp in h.inFlight && tp in h.watermarks && tp in h.highWater then Some((h.watermarks[tp], h.highWater[tp]))
    else None
  }

  /** A settlement that forgets the partition if nothing of it is left in flight. */
  predicate Prunes(w: World, e: Event, g: nat, tp: Partition)
    requires g < |w.sessions|
  {
    var h := w.sessions[g].h;
    || (e.Ack? && e.session == g && w.outstanding == Idle && IsActive(h, e.token) && e.token.tp == tp
        && Issued(w, e).None?)
    || (Adopted(w, e, g) && w.outstanding.token.tp == tp)
    || (e.CommitReturns? && e.outcome == Succeeded && w.outstanding.BareAcking? && w.outstanding.session == g
        && w.outstanding.epoch == h.epoch && w.outstanding.tracked && w.outstanding.record.tp == tp)
    || (h.legacy.Some? && Rejects(w, e, g, h.legacy.value) && h.legacy.value.tp == tp && !h.HasActive(tp))
  }

  /** A token commit of the session succeeds while the token still counts. */
  predicate Adopted(w: World, e: Event, g: nat) {
    && e.CommitReturns? && e.outcome == Succeeded && w.outstanding.Acking?
    && w.outstanding.session == g < |w.sessions| && IsActive(w.sessions[g].h, w.outstanding.token)
  }

  lemma PruneCohort(h: Handles, tp: Partition, q: Partition)
    ensures CohortOf(PruneIfDrained(h, tp), q) == if q == tp && h.Pending(q) == {} then None else CohortOf(h, q)
  {
  }

  lemma FinishCohort(h: Handles, t: Token, q: Partition)
    ensures CohortOf(Finish(h, t), q) == CohortOf(h, q)
  {
  }

  lemma PopCohort(h: Handles, tp: Partition, o: nat, attempt: nat, q: Partition)
    requires h.inFlight.Keys == h.watermarks.Keys == h.highWater.Keys
    ensures var c := CohortOf(h, q);
            var n := if q != tp then c
                     else if c.None? then Some((o, o + 1))
                     else Some((c.value.0, if c.value.1 > o + 1 then c.value.1 else o + 1));
            CohortOf(PopToken(h, tp, o, attempt), q) == n && CohortOf(PopLegacy(h, tp, o), q) == n
    ensures CohortOf(Advance(h, attempt), q) == None
  {
  }

  lemma AckCohort(h: Handles, t: Token, q: Partition)
    requires h.inFlight.Keys == h.watermarks.Keys == h.highWater.Keys
    ensures var n := AckBegin(h, t).0;
            CohortOf(n, q)
            == if IsActive(h, t) && q == t.tp && !AckBegin(h, t).1.SendCommit? && n.Pending(q) == {} then None
               else CohortOf(h, q)
  {
    hide Finish, PruneIfDrained, Watermark, IsActive;
    if IsActive(h, t) {
      var base := if t.tp in h.watermarks then h.watermarks[t.tp] else t.offset;
      var removed := h.(inFlight := h.inFlight[t.tp := h.Pending(t.tp) - {t.offset}],
                        watermarks := h.watermarks[t.tp := base]);
      FinishCohort(h, t, q);
      FinishCohort(removed, t, q);
      FinishPending(h, t, q);
      FinishPending(removed, t, q);
      PruneCohort(Finish(h, t), t.tp, q);
      PruneCohort(Finish(removed, t), t.tp, q);
      PrunePending(Finish(h, t), t.tp, q);
      PrunePending(Finish(removed, t), t.tp, q);
    }
  }

  lemma ReturnCohort(s: Session, t: Token, wm: nat, outcome: Outcome, q: Partition)
    requires s.h.inFlight.Keys == s.h.watermarks.Keys == s.h.highWater.Keys
    requires IsActive(s.h, t) ==> t.tp in s.h.inFlight
    ensures var n := CommitReturned(s, t, wm, outcome).h;
            CohortOf(n, q)
            == if outcome == Succeeded && IsActive(s.h, t) && q == t.tp
               then (if n.Pending(q) == {} then None else Some((wm, s.h.highWater[q])))
               else CohortOf(s.h, q)
  {
    hide Finish, PruneIfDrained, IsActive;
    var h := s.h.(watermarks := s.h.watermarks[t.tp := wm]);
    FinishCohort(h, t, q);
    FinishPending(h, t, q);
    PruneCohort(Finish(h, t), t.tp, q);
    PrunePending(Finish(h, t), t.tp, q);
  }

  lemma BareAckCohort(h: Handles, r: Key, tracked: bool, q: Partition)
    requires h.inFlight.Keys == h.watermarks.Keys == h.highWater.Keys
    ensures var n := BareAckSettle(h, r, tracked);
            CohortOf(n, q) == if tracked && q == r.tp && n.Pending(q) == {} then None else CohortOf(h, q)
  {
    hide PruneIfDrained;
    if tracked && r.tp in h.inFlight {
      var h1 := if h.legacy == Some(r) then h.(legacy := None) else h;
      var one := h1.(inFlight := h1.inFlight[r.tp := h1.inFlight[r.tp] - {r.offset}]);
      PruneCohort(one, r.tp, q);
      PrunePending(one, r.tp, q);
    }
  }

  lemma BareNackCohort(h: Handles, r: Key, q: Partition)
    requires h.inFlight.Keys == h.watermarks.Keys == h.highWater.Keys
    ensures var n := BareNackSettle(h, r);
            CohortOf(n, q) == if q == r.tp && !h.HasActive(q) && n.Pending(q) == {} then None else CohortOf(h, q)
  {
    hide PruneIfDrained;
    if r.tp in h.inFlight {
      var one := h.(legacy := None, inFlight := h.inFlight[r.tp := h.inFlight[r.tp] - {r.offset}]);
      PruneCohort(one, r.tp, q);
      PrunePending(one, r.tp, q);
    }
  }

  lemma KeysAgree(log: Log, w: World, g: nat)
    requires WorldOk(log, w) && g < |w.sessions|
    ensures w.sessions[g].h.inFlight.Keys == w.sessions[g].h.watermarks.Keys == w.sessions[g].h.highWater.Keys
  {
    assert SessionOk(log, w.acked, w.lastAttempt, w.sessions[g]);
  }

  /** Exactly where a partition's cohort stands after a step.  A delivery starts one at its
      record or moves the frontier past it; a successful token commit moves the base to its
      watermark; the end of the assignment, and a settlement that leaves nothing in flight,
      end it. */
  lemma CohortExactly(log: Log, w: World, e: Event, g: nat, tp: Partition)
    requires WorldOk(log, w) && g < |w.sessions|
    ensures g < |Step(log, w, e).sessions|
    ensures var n := Step(log, w, e).sessions[g].h;
            var was := CohortOf(w.sessions[g].h, tp);
            CohortOf(n, tp)
            == if (e.Deliver? || e.DeliverBare?) && e.tp == tp && Delivers(log, w, e, g, tp, e.offset) then
                 (if was.None? then Some((e.offset, e.offset + 1))
                  else Some((was.value.0, if was.value.1 > e.offset + 1 then was.value.1 else e.offset + 1)))
               else if e.Assigned? && e.session == g && w.live == Some(g) then None
               else if Prunes(w, e, g, tp) && n.Pending(tp) == {} then None
               else if Adopted(w, e, g) && w.outstanding.token.tp == tp && was.Some?
               then Some((w.outstanding.watermark, was.value.1))
               else was
  {
    hide WorldOk, Step, IsActive, IsNext, Handles.Pending, Handles.HasActive, CohortOf, Issued;
    hide AckBegin, CommitReturned, BareAckSettle, BareNackSettle, Finish, PopToken, PopLegacy, Advance;
    HandlesStep(log, w, e, g);
    KeysAgree(log, w, g);
    var h := w.sessions[g].h;
    match e
    case Assigned(_, _) => PopCohort(h, tp, 0, w.epoch + 1, tp);
    case Deliver(q, o) => PopCohort(h, q, o, w.lastAttempt + 1, tp);
    case DeliverBare(q, o) => PopCohort(h, q, o, 0, tp);
    case Ack(_, t) =>
      AckCohort(h, t, tp);
      if w.outstanding == Idle { AckIssues(w, g, t); }
    case CommitReturns(_, outcome) =>
      if w.outstanding.Acking? {
        TokenInFlight(log, w);
        if w.outstanding.session == g {
          ReturnCohort(w.sessions[g], w.outstanding.token, w.outstanding.watermark, outcome, tp);
          CohortValue(h, tp);
        }
      } else if w.outstanding.BareAcking? {
        BareAckCohort(h, w.outstanding.record, w.outstanding.tracked, tp);
      }
    case SeekReturns(_) =>
      if w.outstanding.Nacking? {
        FinishCohort(h, w.outstanding.token, tp);
      } else if w.outstanding.BareNacking? {
        BareNackCohort(h, w.outstanding.record, tp);
      }
    case Disconnect => CohortValue(h, tp);
    case _ =>
  }

  lemma CohortValue(h: Handles, tp: Partition)
    requires h.inFlight.Keys == h.watermarks.Keys == h.highWater.Keys
    ensures CohortOf(h, tp) == if tp in h.inFlight then Some((h.watermarks[tp], h.highWater[tp])) else None
    ensures CohortOf(h.(retired := true), tp) == CohortOf(h, tp)
  {
  }

  // ----- Where the consumer stands -----

  function CursorOf(w: World, g: nat, tp: Partition): Option<Cursor> {
    if g < |w.sessions| && tp in w.sessions[g].cursors then Some(w.sessions[g].cursors[tp]) else None
  }

  /** The offset that a rejection, if it goes out in this step, seeks back to. */
  function SeeksTo(w: World, e: Event, g: nat, tp: Partition): Option<nat>
    requires g < |w.sessions|
  {
    var h := w.sessions[g].h;
    if w.outstanding != Idle || h.retired then None
    else match e
      case Nack(q, t, owned) =>
        if q == g && owned && IsActive(h, t) && t.tp == tp then Some(t.offset) else None
      case BareNack(q, owned) =>
        if q == g && owned && h.legacy.Some? && h.legacy.value.tp == tp then Some(h.legacy.value.offset) else None
      case _ => None
  }

  predicate PositionIs(w: World, g: nat, tp: Partition, position: Option<nat>) {
    match position
    case None => CursorOf(w, g, tp) == None
    case Some(p) => CursorOf(w, g, tp).Some? && CursorOf(w, g, tp).value.position == p
  }

  ghost function PositionAfter(log: Log, w: World, e: Event, g: nat, tp: Partition): Option<nat>
    requires g < |w.sessions|
  {
    if e.Assigned? && e.session == g && w.live == Some(g) then
      if tp !in e.resets then None
      else if tp in w.committed then Some(w.committed[tp].offset) else Some(e.resets[tp])
    else if CursorOf(w, g, tp).None? then None
    else if (e.Deliver? || e.DeliverBare?) && e.tp == tp && Delivers(log, w, e, g, tp, e.offset) then Some(e.offset + 1)
    else if SeeksTo(w, e, g, tp).Some? then SeeksTo(w, e, g, tp)
    else Some(CursorOf(w, g, tp).value.position)
  }

  lemma NackPosition(log: Log, w: World, e: Event, g: nat, tp: Partition)
    requires g < |w.sessions| && (e.Nack? || e.BareNack?)
    ensures PositionIs(Step(log, w, e), g, tp, PositionAfter(log, w, e, g, tp))
  {
    hide IsActive;
  }

  lemma ReturnPosition(log: Log, w: World, e: Event, g: nat, tp: Partition)
    requires g < |w.sessions| && (e.CommitReturns? || e.SeekReturns?)
    ensures PositionIs(Step(log, w, e), g, tp, PositionAfter(log, w, e, g, tp))
  {
    hide IsActive, AckSettle, AckRestore, BareAckSettle, BareNackSettle, Finish, Handles.HasActive;
  }

  lemma OtherPosition(log: Log, w: World, e: Event, g: nat, tp: Partition)
    requires g < |w.sessions| && !e.CommitReturns? && !e.SeekReturns? && !e.Nack? && !e.BareNack?
    ensures PositionIs(Step(log, w, e), g, tp, PositionAfter(log, w, e, g, tp))
  {
    hide IsActive, AckBegin, PopToken, PopLegacy, Advance, NextRecord, BareAckRefused, OriginOf;
  }

  /** Exactly where the consumer of a partition stands after a step: where an assignment
      starts it, past the record a fetch delivered, or back at the record a rejection seeks. */
  lemma PositionExactly(log: Log, w: World, e: Event, g: nat, tp: Partition)
    requires g < |w.sessions|
    ensures PositionIs(Step(log, w, e), g, tp, PositionAfter(log, w, e, g, tp))
  {
    hide Step, PositionIs, PositionAfter;
    if e.Nack? || e.BareNack? {
      NackPosition(log, w, e, g, tp);
    } else if e.CommitReturns? || e.SeekReturns? {
      ReturnPosition(log, w, e, g, tp);
    } else {
      OtherPosition(log, w, e, g, tp);
    }
  }

  /** A rejected record comes next.  In every run, when a token of the live session is
      rejected and the seek returns, the token is dead, and the one record of the partition
      that a fetch can deliver is the rejected one. */
  lemma NackRedelivers(log: Log, trace: seq<Event>, g: nat, t: Token, o: nat)
    requires var w := Run(log, trace);
             w.outstanding == Idle && w.live == Some(g) && g < |w.sessions| && IsActive(w.sessions[g].h, t)
    ensures var n := Step(log, Step(log, Run(log, trace), Nack(g, t, true)), SeekReturns(true));
            && g < |n.sessions| && !IsActive(n.sessions[g].h, t)
            && (IsNext(log, n, t.tp, o) <==> o == t.offset)
  {
    hide Run, WorldOk, Finish, IsActive;
    RunOk(log, trace);
    var w := Run(log, trace);
    LiveNotRetired(log, w);
    TokenOfLive(log, w, g, t);
    FinishActive(w.sessions[g].h, t, t);
  }

  lemma LiveNotRetired(log: Log, w: World)
    requires WorldOk(log, w) && w.live.Some?
    ensures w.live.value < |w.sessions| && !w.sessions[w.live.value].h.retired
  {
    hide SessionOk, CommittedOk, Covered;
  }

  lemma TokenOfLive(log: Log, w: World, g: nat, t: Token)
    requires WorldOk(log, w) && g < |w.sessions| && IsActive(w.sessions[g].h, t)
    ensures t.tp in w.sessions[g].cursors && KeyOf(t) in log && !w.sessions[g].cursors[t.tp].lost
  {
    TokenInRange(log, w.acked, w.lastAttempt, w.sessions[g], t);
    hide SessionOk, CommittedOk, LivesOk;
  }
}
