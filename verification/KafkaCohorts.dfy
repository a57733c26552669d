/** How the commits of one cohort follow each other: from the seeding of a partition's
    commit base to its pruning or fencing. */
module KafkaCohorts {
  import opened Options
  import opened KafkaDelivery
  import opened KafkaProtocol
  import opened KafkaRuns

  /** The partition keeps its commit base across the step: neither pruned nor fenced. */
  predicate CohortSurvives(w: World, n: World, g: nat, tp: Partition) {
    && g < |w.sessions| && g < |n.sessions|
    && w.sessions[g].h.epoch == n.sessions[g].h.epoch
    && tp in w.sessions[g].h.watermarks && tp in n.sessions[g].h.watermarks
  }

  /** A token commit of the partition succeeds, and its token still counts. */
  predicate Adopts(w: World, e: Event, g: nat, tp: Partition) {
    && e.CommitReturns? && e.outcome == Succeeded
    && w.outstanding.Acking? && w.outstanding.session == g < |w.sessions| && w.outstanding.token.tp == tp
    && IsActive(w.sessions[g].h, w.outstanding.token)
  }

  /** A cohort of `k` that was in `h` has the base it had. */
  ghost predicate BasesKept(h: Handles, k: Handles) {
    forall tp :: tp in k.watermarks && tp in h.watermarks ==> h.watermarks[tp] == k.watermarks[tp]
  }

  lemma DeliveriesKeepBases(h: Handles, tp: Partition, offset: nat, attempt: nat)
    ensures BasesKept(h, PopToken(h, tp, offset, attempt)) && BasesKept(h, PopLegacy(h, tp, offset))
  {
  }

  lemma SettlementsKeepBases(s: Session, t: Token)
    requires DomainsAgree(s)
    ensures BasesKept(s.h, AckBegin(s.h, t).0) && BasesKept(s.h, Finish(s.h, t))
  {
    AckBeginBase(s.h, t);
    hide AckBegin;
  }

  lemma CommitMovesBase(s: Session, t: Token, wm: nat, origin: nat, outcome: Outcome, tp: Partition)
    requires IsActive(s.h, t) ==> AckingOk(s, t, wm, origin)
    ensures var k := CommitReturned(s, t, wm, outcome).h;
            tp in k.watermarks && tp in s.h.watermarks ==>
              if tp == t.tp && outcome == Succeeded && IsActive(s.h, t)
                  then k.watermarks[tp] == wm && s.h.watermarks[tp] <= wm
              else k.watermarks[tp] == s.h.watermarks[tp]
  {
  }

  lemma BareSettlementsKeepBases(s: Session, r: Key, tracked: bool, owned: bool)
    ensures BasesKept(s.h, BareAckSettle(s.h, r, tracked)) && BasesKept(s.h, BareNackReturned(s, r, owned).h)
  {
  }

  lemma AckBeginBase(h: Handles, t: Token)
    requires h.inFlight.Keys == h.watermarks.Keys == h.highWater.Keys
    ensures var n := AckBegin(h, t).0;
            forall tp :: tp in n.watermarks ==> tp in h.watermarks && n.watermarks[tp] == h.watermarks[tp]
    ensures AckBegin(h, t).1.SendCommit? ==> t.tp in h.watermarks && h.watermarks[t.tp] < AckBegin(h, t).1.watermark
  {
    hide Watermark;
  }

  lemma AckingIsOk(log: Log, w: World)
    requires WorldOk(log, w) && w.outstanding.Acking?
    ensures w.outstanding.session < |w.sessions|
    ensures var s, t := w.sessions[w.outstanding.session], w.outstanding.token;
            IsActive(s.h, t) ==> AckingOk(s, t, w.outstanding.watermark, w.outstanding.origin)
  {
    hide Covered, AckingOk, IsActive, SessionOk, LivesOk, CommittedOk;
  }

  lemma CommitReturnIs(log: Log, w: World, e: Event)
    requires e.CommitReturns? && w.outstanding.Acking? && w.outstanding.session < |w.sessions|
    ensures var g := w.outstanding.session;
            Step(log, w, e).sessions[g].h
                == CommitReturned(w.sessions[g], w.outstanding.token, w.outstanding.watermark, e.outcome).h
  {
    hide CommitReturned;
  }

  /** Commits that come back. */
  lemma ReturnMovesBase(log: Log, w: World, e: Event, g: nat, tp: Partition)
    requires WorldOk(log, w) && e.CommitReturns? && CohortSurvives(w, Step(log, w, e), g, tp)
    ensures var base, moved := w.sessions[g].h.watermarks[tp], Step(log, w, e).sessions[g].h.watermarks[tp];
            if Adopts(w, e, g, tp) then moved == w.outstanding.watermark && base <= moved else moved == base
  {
    hide WorldOk, Covered, DomainsAgree, CommitReturned, BareAckSettle, AckingOk, IsActive, Step, BareNackReturned,
        AckBegin;
    hide PopToken, PopLegacy, Advance, Finish;
    HowASessionChanges(log, w, e, g);
    if w.outstanding.Acking? { AckingIsOk(log, w); }
    var s := w.sessions[g];
    if w.outstanding.Acking? && w.outstanding.session == g {
      CommitReturnIs(log, w, e);
      CommitMovesBase(s, w.outstanding.token, w.outstanding.watermark, w.outstanding.origin, e.outcome, tp);
    } else if w.outstanding.BareAcking? {
      BareSettlementsKeepBases(s, w.outstanding.record, w.outstanding.tracked, true);
    }
  }

  lemma OtherStepsKeepBase(log: Log, w: World, e: Event, g: nat, tp: Partition)
    requires WorldOk(log, w) && !e.CommitReturns? && CohortSurvives(w, Step(log, w, e), g, tp)
    ensures Step(log, w, e).sessions[g].h.watermarks[tp] == w.sessions[g].h.watermarks[tp]
  {
    DomainsOf(log, w, g);
    HowASessionChanges(log, w, e, g);
    assert w.sessions[g].h.epoch <= w.epoch;
    hide Step, WorldOk, DomainsAgree;
    hide AckBegin, PopToken, PopLegacy, CommitReturned, BareAckSettle, Finish, BareNackReturned;
    var s := w.sessions[g];
    match e
    case Deliver(q, o) => DeliveriesKeepBases(s.h, q, o, w.lastAttempt + 1);
    case DeliverBare(q, o) => DeliveriesKeepBases(s.h, q, o, w.lastAttempt + 1);
    case Ack(_, t) => SettlementsKeepBases(s, t);
    case SeekReturns(_) =>
      if w.outstanding.Nacking? {
        SettlementsKeepBases(s, w.outstanding.token);
      } else if w.outstanding.BareNacking? {
        BareSettlementsKeepBases(s, w.outstanding.record, true, w.outstanding.owned);
      }
    case _ =>
  }

  /** While a cohort lives, its base moves only to the offset of a token commit that
      succeeds, and never back. */
  lemma BaseFollowsCommits(log: Log, w: World, e: Event, g: nat, tp: Partition)
    requires WorldOk(log, w) && CohortSurvives(w, Step(log, w, e), g, tp)
    ensures var base, moved := w.sessions[g].h.watermarks[tp], Step(log, w, e).sessions[g].h.watermarks[tp];
            if Adopts(w, e, g, tp) then moved == w.outstanding.watermark && base <= moved else moved == base
  {
    hide WorldOk, Step;
    if e.CommitReturns? {
      ReturnMovesBase(log, w, e, g, tp);
    } else {
      OtherStepsKeepBase(log, w, e, g, tp);
    }
  }

  /** The cohort lives from the state before event `i` to the one before event `j`. */
  ghost predicate Lives(log: Log, trace: seq<Event>, i: nat, j: nat, g: nat, tp: Partition)
    requires i <= j <= |trace|
  {
    && g < |Run(log, trace[..i]).sessions| && tp in Run(log, trace[..i]).sessions[g].h.watermarks
    && forall k :: i <= k < j ==> CohortSurvives(Run(log, trace[..k]), Run(log, trace[..k + 1]), g, tp)
  }

  lemma {:induction false} BaseAlong(log: Log, trace: seq<Event>, i: nat, j: nat, g: nat, tp: Partition)
    requires i <= j <= |trace| && Lives(log, trace, i, j, g, tp)
    ensures g < |Run(log, trace[..j]).sessions| && tp in Run(log, trace[..j]).sessions[g].h.watermarks
    ensures var base := Run(log, trace[..i]).sessions[g].h.watermarks[tp];
            var moved := Run(log, trace[..j]).sessions[g].h.watermarks[tp];
            && base <= moved
            && ((forall k :: i <= k < j ==> !Adopts(Run(log, trace[..k]), trace[k], g, tp)) ==> base == moved)
  {
    hide Step, Run, WorldOk, Adopts;
    if i < j {
      assert Lives(log, trace, i, j - 1, g, tp);
      BaseAlong(log, trace, i, j - 1, g, tp);
      RunOk(log, trace[..j - 1]);
      RunStep(log, trace, j - 1);
      assert CohortSurvives(Run(log, trace[..j - 1]), Run(log, trace[..j - 1 + 1]), g, tp);
      BaseFollowsCommits(log, Run(log, trace[..j - 1]), trace[j - 1], g, tp);
    }
  }

  lemma AdoptedBase(log: Log, w: World, e: Event, g: nat, tp: Partition)
    requires WorldOk(log, w) && Adopts(w, e, g, tp)
    ensures var n := Step(log, w, e);
            g < |n.sessions| && (tp in n.sessions[g].h.watermarks ==>
                                 n.sessions[g].h.watermarks[tp] == w.outstanding.watermark)
  {
    hide SessionOk, CommittedOk;
  }

  /** The step of `e` sends a commit of the partition from session `g`. */
  predicate Sends(w: World, e: Event, g: nat, tp: Partition) {
    && (e.Ack? || e.BareAck?) && e.session == g < |w.sessions|
    && Issued(w, e).Some? && Issued(w, e).value.0 == tp
  }

  /** A commit against the base of its living cohort.  A token commit is always above
      it; a bare commit of a record is above it if and only if the base has not passed
      that record. */
  lemma CommitAboveBaseIff(log: Log, w: World, e: Event, g: nat, tp: Partition)
    requires WorldOk(log, w) && Sends(w, e, g, tp) && tp in w.sessions[g].h.watermarks
    ensures e.BareAck? ==> w.sessions[g].h.legacy.Some?
    ensures Issued(w, e).value.1.offset > w.sessions[g].h.watermarks[tp] <==>
              e.Ack? || w.sessions[g].h.watermarks[tp] <= w.sessions[g].h.legacy.value.offset
  {
    DomainsOf(log, w, g);
    if e.Ack? {
      AckBeginBase(w.sessions[g].h, e.token);
    }
    hide AckBegin, WorldOk;
  }

  /** Within a cohort every later token commit is above every earlier success. */
  lemma TokenCommitsIncrease(log: Log, trace: seq<Event>, i: nat, j: nat, g: nat, tp: Partition)
    requires i < j < |trace|
    requires Adopts(Run(log, trace[..i]), trace[i], g, tp) && Lives(log, trace, i + 1, j, g, tp)
    requires trace[j].Ack? && Sends(Run(log, trace[..j]), trace[j], g, tp)
    ensures Run(log, trace[..i]).outstanding.watermark < Issued(Run(log, trace[..j]), trace[j]).value.1.offset
  {
    hide Step, Run, WorldOk, Issued;
    RunOk(log, trace[..i]);
    RunOk(log, trace[..j]);
    RunStep(log, trace, i);
    AdoptedBase(log, Run(log, trace[..i]), trace[i], g, tp);
    BaseAlong(log, trace, i + 1, j, g, tp);
    CommitAboveBaseIff(log, Run(log, trace[..j]), trace[j], g, tp);
  }

  /** Within a cohort a commit, by token or bare, against the last success before it.
      The base the backend holds is that success; a token commit is above it, and a bare
      commit is if and only if the base has not passed the legacy record. */
  lemma CommitAboveLastIff(log: Log, trace: seq<Event>, i: nat, j: nat, g: nat, tp: Partition)
    requires i < j < |trace|
    requires Adopts(Run(log, trace[..i]), trace[i], g, tp) && Lives(log, trace, i + 1, j, g, tp)
    requires forall k :: i + 1 <= k < j ==> !Adopts(Run(log, trace[..k]), trace[k], g, tp)
    requires Sends(Run(log, trace[..j]), trace[j], g, tp)
    ensures var w := Run(log, trace[..j]);
            var last := Run(log, trace[..i]).outstanding.watermark;
            && g < |w.sessions| && tp in w.sessions[g].h.watermarks && w.sessions[g].h.watermarks[tp] == last
            && (trace[j].BareAck? ==> w.sessions[g].h.legacy.Some?)
            && (Issued(w, trace[j]).value.1.offset > last <==>
                 trace[j].Ack? || last <= w.sessions[g].h.legacy.value.offset)
  {
    hide Step, Run, WorldOk, Issued;
    RunOk(log, trace[..i]);
    RunOk(log, trace[..j]);
    RunStep(log, trace, i);
    AdoptedBase(log, Run(log, trace[..i]), trace[i], g, tp);
    BaseAlong(log, trace, i + 1, j, g, tp);
    CommitAboveBaseIff(log, Run(log, trace[..j]), trace[j], g, tp);
  }
}
