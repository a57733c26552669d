/** Exactly which steps strand a topic of the Pulsar backend. */
module PulsarStrands {
  import opened Options
  import opened PulsarPumps
  import opened PulsarRuns
  import opened PulsarExclusive
  import opened PulsarStranded

  /** A tombstone with a consumer, of a worker at this stage, that nobody will finish. */
  predicate Abandoned(published: bool, stage: Stage, free: bool, runs: bool) {
    !runs && (LooksNoMore(stage) || !free || !published)
  }

  /** The step publishes the topic's tombstone where nobody will finish it: a thread start
      that fails without telling, and the thread did not run; a fence after the worker's
      unlocked look; or a close that no thread runs and that the worker will not adopt. */
  predicate Strands(s: State, e: Event, t: Topic)
    requires Numbered(s) && Enabled(s, e)
  {
    match e
    case CreatePump(k, launch) => k == t && launch == Ambiguous(false)
    case FencePump(p, reentrant, free, runs) =>
      && s.pumps[p].topic == t && s.pumps[p].retirement.None?
      && (if s.pumps[p].published then Abandoned(true, s.pumps[p].stage, free || reentrant, runs && !reentrant)
          else s.pumps[p].stage != Stopped && LooksNoMore(s.pumps[p].stage))
    case CallerTerminal(k, free, runs) =>
      var pump := s.pumps[s.live[k]];
      k == t && pump.retirement.None? && pump.published && Abandoned(true, pump.stage, free, runs)
    case Publish(p, free, runs) =>
      s.pumps[p].topic == t && !Live(s, p) && s.pumps[p].retirement.None? && !runs
    case PublicationFault(p, free, runs) => s.pumps[p].topic == t && s.pumps[p].retirement.None? && !runs
    case _ => false
  }

  predicate Newly(s: State, e: Event, t: Topic)
    requires Numbered(s) && Enabled(s, e) && Numbered(Step(s, e))
  {
    !Stranded(s, t) ==> (Stranded(Step(s, e), t) <==> Strands(s, e, t))
  }

  /** A step that keeps the topics' tombstones, and of the topic's own what matters. */
  lemma SameNewly(s: State, e: Event, t: Topic)
    requires Numbered(s) && Enabled(s, e) && Numbered(Step(s, e)) && !Strands(s, e, t)
    requires var u := Step(s, e);
             t in u.tombs ==>
               && t in s.tombs && u.tombs[t] == s.tombs[t] && s.tombs[t] < |s.retirements| <= |u.retirements|
               && var x, y := s.retirements[s.tombs[t]], u.retirements[s.tombs[t]];
                  && x.pump < |s.pumps| <= |u.pumps|
                  && (Hopeless(y, u.pumps[y.pump]) ==> Hopeless(x, s.pumps[x.pump]))
    ensures Newly(s, e, t)
  {
    hide Numbered, Enabled, Step, Hopeless, Strands;
  }

  predicate Bootstraps(e: Event) {
    e.SubscribeReturns? || e.SubscribeFails? || e.ReportBootstrap? || e.ReportFault?
  }

  predicate Receives(e: Event) {
    e.ReceiveBegins? || e.ReceiveReturns? || e.Deliver? || e.WorkerLeaves?
  }

  predicate Finishes(e: Event) {
    e.ReadRetirement? || e.WorkerStops? || e.WorkerClosed?
  }

  lemma BootstrapNewly(s: State, e: Event, t: Topic)
    requires Ok(s) && Numbered(s) && Enabled(s, e) && Numbered(Step(s, e)) && Bootstraps(e)
    ensures Newly(s, e, t)
  {
    hide Ok, Numbered, Live, Newly;
    if t in s.tombs {
      TombTopic(s, t);
      TombStage(s, s.tombs[t]);
    }
    SameNewly(s, e, t);
  }

  lemma ReceiveNewly(s: State, e: Event, t: Topic)
    requires Ok(s) && Numbered(s) && Enabled(s, e) && Numbered(Step(s, e)) && Receives(e)
    ensures Newly(s, e, t)
  {
    hide Ok, Numbered, Live, Newly;
    if t in s.tombs {
      TombTopic(s, t);
      TombStage(s, s.tombs[t]);
    }
    SameNewly(s, e, t);
  }

  lemma EndNewly(s: State, e: Event, t: Topic)
    requires Ok(s) && Numbered(s) && Enabled(s, e) && Numbered(Step(s, e)) && Finishes(e)
    ensures Newly(s, e, t)
  {
    hide Ok, Numbered, Live, Newly;
    if t in s.tombs {
      TombTopic(s, t);
      TombStage(s, s.tombs[t]);
    }
    SameNewly(s, e, t);
  }

  lemma CloseNewly(s: State, e: Event, t: Topic)
    requires Ok(s) && Numbered(s) && Enabled(s, e) && Numbered(Step(s, e))
    requires e.CloseReturns? || e.Completes? || e.FinishPlaceholder? || e.AdoptRetirement?
    ensures Newly(s, e, t)
  {
    hide Ok, Numbered, Newly;
    if t in s.tombs {
      TombTopic(s, t);
      TombStage(s, s.tombs[t]);
    }
    SameNewly(s, e, t);
  }

  lemma PlainNewly(s: State, e: Event, t: Topic)
    requires Ok(s) && Numbered(s) && Enabled(s, e) && Numbered(Step(s, e))
    requires e.Connect? || e.BeginDisconnect? || e.EndDisconnect? || e.DropTomb?
    ensures Newly(s, e, t)
  {
    hide Ok, Numbered, Newly;
    if t in s.tombs { TombTopic(s, t); }
    SameNewly(s, e, t);
  }

  lemma CandidatePlain(s: State, p: nat)
    requires Ok(s) && AtStage(s, p, Candidate)
    ensures !s.pumps[p].published && (s.pumps[p].retirement.Some? ==> !s.pumps[p].accepting)
  {
    At(s, p);
    hide PumpsOk, RetirementsOk, Covered, OwnTomb, FencingOk, LiveOk;
  }

  lemma PublishNewly(s: State, e: Event, t: Topic)
    requires Ok(s) && Numbered(s) && Enabled(s, e) && Numbered(Step(s, e)) && e.Publish?
    ensures Newly(s, e, t)
  {
    hide Ok, Numbered;
    StaleRange(s, e.p);
    CandidatePlain(s, e.p);
    if t in s.tombs {
      TombTopic(s, t);
      TombStage(s, s.tombs[t]);
    }
    if Live(s, e.p) {
      hide Newly;
      SameNewly(s, e, t);
    } else {
      hide Live, Enabled;
    }
  }

  lemma FaultNewly(s: State, e: Event, t: Topic)
    requires Ok(s) && Numbered(s) && Enabled(s, e) && Numbered(Step(s, e)) && e.PublicationFault?
    ensures Newly(s, e, t)
  {
    hide Ok, Numbered, Live;
    StaleRange(s, e.p);
    CandidatePlain(s, e.p);
    if t in s.tombs {
      TombTopic(s, t);
      TombStage(s, s.tombs[t]);
    }
  }

  lemma FenceNewly(s: State, e: Event, t: Topic)
    requires Ok(s) && Numbered(s) && Enabled(s, e) && Numbered(Step(s, e)) && e.FencePump?
    ensures Newly(s, e, t)
  {
    hide Ok, Numbered;
    if t in s.tombs {
      TombTopic(s, t);
      TombStage(s, s.tombs[t]);
    }
    if s.pumps[e.p].topic != t || s.pumps[e.p].retirement.Some?
       || (!s.pumps[e.p].published && s.pumps[e.p].stage == Stopped) {
      hide Newly;
      SameNewly(s, e, t);
    }
  }

  lemma TerminalNewly(s: State, e: Event, t: Topic)
    requires Ok(s) && Numbered(s) && Enabled(s, e) && Numbered(Step(s, e)) && e.CallerTerminal?
    ensures Newly(s, e, t)
  {
    hide Ok, Numbered;
    if t in s.tombs {
      TombTopic(s, t);
      TombStage(s, s.tombs[t]);
    }
  }

  lemma CreateNewly(s: State, e: Event, t: Topic)
    requires Ok(s) && Numbered(s) && Enabled(s, e) && Numbered(Step(s, e)) && e.CreatePump?
    ensures Newly(s, e, t)
  {
    hide Ok, Numbered;
    if t in s.tombs {
      TombTopic(s, t);
      TombStage(s, s.tombs[t]);
    }
  }

  /** Exactly which steps strand a topic that was not stranded. */
  lemma StrandsIff(s: State, e: Event, t: Topic)
    requires Ok(s) && Enabled(s, e)
    ensures Numbered(s) && Numbered(Step(s, e))
    ensures !Stranded(s, t) ==> (Stranded(Step(s, e), t) <==> Strands(s, e, t))
  {
    hide Ok, Numbered, Enabled, Step, Stranded, Strands;
    OkIsNumbered(s);
    StepKeeps(s, e);
    OkIsNumbered(Step(s, e));
    if Bootstraps(e) {
      BootstrapNewly(s, e, t);
    } else if Receives(e) {
      ReceiveNewly(s, e, t);
    } else if Finishes(e) {
      EndNewly(s, e, t);
    } else if e.CloseReturns? || e.Completes? || e.FinishPlaceholder? || e.AdoptRetirement? {
      CloseNewly(s, e, t);
    } else if e.Connect? || e.BeginDisconnect? || e.EndDisconnect? || e.DropTomb? {
      PlainNewly(s, e, t);
    } else {
      match e
      case Publish(_, _, _) => PublishNewly(s, e, t);
      case PublicationFault(_, _, _) => FaultNewly(s, e, t);
      case FencePump(_, _, _, _) => FenceNewly(s, e, t);
      case CallerTerminal(_, _, _) => TerminalNewly(s, e, t);
      case CreatePump(_, _) => CreateNewly(s, e, t);
    }
  }
}
