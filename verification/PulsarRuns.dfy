/** Subscription exclusivity of the Pulsar backend over every run. */
module PulsarRuns {
  import opened Options
  import opened PulsarPumps

  /** The retirement of the pump has a consumer to close. */
  predicate Attached(s: State, p: nat)
    requires Numbered(s) && p < |s.pumps|
  {
    s.pumps[p].retirement.Some? && s.retirements[s.pumps[p].retirement.value].attached
  }

  /** What a pump's stage says of its consumer. */
  predicate PumpOk(pump: Pump, isOpen: bool, attached: bool) {
    && (pump.stage in {Subscribing, BootstrapFailed, Never} ==> !isOpen && !pump.published && !attached)
    && (pump.stage == Candidate ==> isOpen && !pump.published && !attached)
    && (pump.stage in {Ready, InReceive, Returned} ==> pump.published)
    && (isOpen ==> pump.stage == Candidate || pump.published || attached)
    && (pump.retirement.Some? && !attached ==> !pump.accepting && !pump.published)
    && (pump.retirement.Some? && pump.published ==> !pump.accepting)
    && (pump.stage == Faulted ==> attached)
    && (pump.stage == Never ==> !pump.accepting)
    && (pump.published && !attached ==> isOpen)
    && (pump.accepting && (pump.stage in {Final, Stopped} || pump.stage.Saw? || pump.stage.Closing?) ==> pump.failed)
    && (pump.failed ==> pump.stage in {Final, Stopped} || pump.stage.Saw? || pump.stage.Closing?)
  }

  predicate PumpsOk(s: State)
    requires Numbered(s)
  {
    forall p :: 0 <= p < |s.pumps| ==> PumpOk(s.pumps[p], p in s.open, Attached(s, p))
  }

  /** The worker closes only while it says so; until some close has returned the consumer
      is open; a close that has returned, or a finished tombstone, leaves nothing
      subscribed. */
  predicate RetirementOk(retirement: Retirement, pump: Pump, isOpen: bool) {
    && (retirement.Running() ==> retirement.attached)
    && (pump.stage.Closing? ==> retirement.worker != NotBegun)
    && (retirement.worker == Begun ==> pump.stage.Closing?)
    && (retirement.free ==> retirement.worker == NotBegun)
    && (retirement.attached && !retirement.Closed() ==> isOpen)
    && (retirement.Closed() || retirement.completed ==> !isOpen && pump.stage != Subscribing)
  }

  predicate RetirementsOk(s: State)
    requires Numbered(s)
  {
    forall r :: 0 <= r < |s.retirements| ==>
      RetirementOk(s.retirements[r], s.pumps[s.retirements[r].pump], s.retirements[r].pump in s.open)
  }

  /** The pump's worker is still subscribing, or no close of its consumer has returned. */
  predicate Occupied(s: State, p: nat)
    requires p < |s.pumps|
  {
    s.pumps[p].stage == Subscribing || p in s.open
  }

  /** Every occupied pump is its topic's live pump or stands behind an incomplete
      tombstone of its topic. */
  predicate Covered(s: State)
    requires Numbered(s)
  {
    forall p :: 0 <= p < |s.pumps| && Occupied(s, p) ==>
      var pump := s.pumps[p];
      if pump.retirement.None? then Get(s.live, pump.topic) == Some(p)
      else Get(s.tombs, pump.topic) == pump.retirement && !s.retirements[pump.retirement.value].completed
  }

  /** An incomplete tombstone beside a live pump is that pump's own. */
  predicate OwnTomb(s: State)
    requires Numbered(s)
  {
    forall t :: t in s.live && t in s.tombs && !s.retirements[s.tombs[t]].completed ==>
        s.retirements[s.tombs[t]].pump == s.live[t]
  }

  /** A disconnect works through live pumps; those done are safe to forget. */
  predicate FencingOk(s: State)
    requires Numbered(s)
  {
    s.fencing.Some? ==>
      && s.fencing.value <= s.live.Values
      && (forall t :: t in s.live && s.live[t] !in s.fencing.value && Occupied(s, s.live[t]) ==>
           s.pumps[s.live[t]].retirement.Some?)
  }

  /** A pump accepts only as its topic's pump in the connected generation, and until a
      disconnect fences it; a topic's pump accepts until then. */
  predicate LiveOk(s: State)
    requires Numbered(s)
  {
    && (forall p :: 0 <= p < |s.pumps| && s.pumps[p].accepting ==> AcceptingOk(s, p))
    && (forall t :: t in s.live ==>
          && s.connected && s.pumps[s.live[t]].generation == s.generation
          && (s.pumps[s.live[t]].accepting || (s.fencing.Some? && s.live[t] !in s.fencing.value)))
  }

  predicate AcceptingOk(s: State, p: nat)
    requires p < |s.pumps|
  {
    && Get(s.live, s.pumps[p].topic) == Some(p)
    && s.connected && s.pumps[p].generation == s.generation
    && (s.fencing.Some? ==> p in s.fencing.value)
  }

  predicate Ok(s: State) {
    Numbered(s) && PumpsOk(s) && RetirementsOk(s) && Covered(s) && OwnTomb(s) && FencingOk(s) && LiveOk(s)
  }

  // ----- Steps that touch one pump -----

  /** `t` differs from `s` only in pump `p`, its retirement, and its topic's entries; a
      pump without a retirement may have got one, with its topic's tombstone. */
  ghost predicate Local(s: State, t: State, p: nat) {
    && p < |s.pumps| && |t.pumps| == |s.pumps|
    && (forall q :: 0 <= q < |s.pumps| && q != p ==> t.pumps[q] == s.pumps[q])
    && t.pumps[p].topic == s.pumps[p].topic && t.pumps[p].generation == s.pumps[p].generation
    && t.connected == s.connected && t.generation == s.generation
    && AcceptingLocal(s, t, p)
    && (forall q :: q != p ==> (q in t.open <==> q in s.open))
    && RetirementsLocal(s.retirements, t.retirements, s.tombs, t.tombs, p, s.pumps[p], t.pumps[p])
    && (t.live == s.live || (t.live == s.live - {s.pumps[p].topic} && Get(s.live, s.pumps[p].topic) == Some(p)
                             && t.fencing.None?))
    && (t.fencing == s.fencing || (s.fencing.Some? && t.fencing == Some(s.fencing.value - {p})))
  }

  /** The pump stops accepting only as it leaves its topic or is fenced. */
  predicate AcceptingLocal(s: State, t: State, p: nat)
    requires p < |s.pumps| == |t.pumps|
  {
    if t.pumps[p].accepting then s.pumps[p].accepting && t.live == s.live && t.fencing == s.fencing
    else s.pumps[p].accepting ==> s.pumps[p].topic !in t.live || (t.fencing.Some? && p !in t.fencing.value)
  }

  predicate RetirementsLocal(before: seq<Retirement>, after: seq<Retirement>, tombs: map<Topic, nat>,
                             tombsAfter: map<Topic, nat>, p: nat, was: Pump, now: Pump) {
    || (now.retirement == was.retirement && after == before && tombsAfter == tombs)
    || (was.retirement.Some? && now.retirement == was.retirement && tombsAfter == tombs
        && var r := was.retirement.value;
           r < |before| && |after| == |before| && after == before[r := after[r]] && after[r].pump == p
               && (before[r].completed ==> after[r].completed))
    || Entombed(before, after, tombs, tombsAfter, p, was, now)
  }

  predicate Entombed(before: seq<Retirement>, after: seq<Retirement>, tombs: map<Topic, nat>,
                     tombsAfter: map<Topic, nat>, p: nat, was: Pump, now: Pump) {
    && was.retirement.None? && now.retirement == Some(|before|)
    && |after| == |before| + 1 && after == before + [after[|before|]] && after[|before|].pump == p
       && !after[|before|].completed
    && tombsAfter == tombs[was.topic := |before|]
  }

  function Own(s: State, p: nat): Option<Retirement>
    requires p < |s.pumps|
  {
    var r := s.pumps[p].retirement;
    if r.Some? && r.value < |s.retirements| then Some(s.retirements[r.value]) else None
  }

  /** A pump as the invariants want it, given its topic's entries and its retirement. */
  predicate Fits(pump: Pump, p: nat, isOpen: bool, live: Option<nat>, tomb: Option<nat>, own: Option<Retirement>) {
    && StageNumbers(pump)
    && var occupied := pump.stage == Subscribing || isOpen;
       if pump.retirement.None? then PumpOk(pump, isOpen, false) && (occupied ==> live == Some(p))
       else
         && own.Some? && own.value.pump == p
         && PumpOk(pump, isOpen, own.value.attached)
         && RetirementOk(own.value, pump, isOpen)
         && (occupied ==> tomb == pump.retirement && !own.value.completed)
  }

  predicate PumpFits(s: State, p: nat)
    requires p < |s.pumps|
  {
    Fits(s.pumps[p], p, p in s.open, Get(s.live, s.pumps[p].topic), Get(s.tombs, s.pumps[p].topic), Own(s, p))
  }

  /** What `Ok` says about one pump. */
  lemma At(s: State, p: nat)
    requires Ok(s) && p < |s.pumps|
    ensures PumpFits(s, p)
    ensures s.pumps[p].retirement.None? && Get(s.live, s.pumps[p].topic) == Some(p) ==> Unfenced(s, s.pumps[p].topic)
    ensures s.fencing.Some? && p in s.fencing.value ==> Get(s.live, s.pumps[p].topic) == Some(p)
    ensures s.pumps[p].accepting ==> AcceptingOk(s, p)
    ensures s.fencing.Some? && Get(s.live, s.pumps[p].topic) == Some(p) && p !in s.fencing.value && Occupied(s, p) ==>
              s.pumps[p].retirement.Some?
  {
  }

  lemma FitsHere(t: State, p: nat)
    requires p < |t.pumps| && PumpFits(t, p)
    ensures var pump := t.pumps[p];
            && StageNumbers(pump)
            && (pump.retirement.Some? ==>
                 pump.retirement.value < |t.retirements| && t.retirements[pump.retirement.value].pump == p)
            && (Occupied(t, p) ==>
                  if pump.retirement.None? then Get(t.live, pump.topic) == Some(p)
                  else Get(t.tombs, pump.topic) == pump.retirement && !t.retirements[pump.retirement.value].completed)
  {
  }

  /** What a local step leaves of the other pumps' retirements and tombstones. */
  lemma Others(s: State, t: State, p: nat)
    requires Numbered(s) && Local(s, t, p)
    ensures |t.retirements| >= |s.retirements|
    ensures forall r :: 0 <= r < |s.retirements| ==>
              && t.retirements[r].pump == s.retirements[r].pump
              && (s.retirements[r].pump != p ==> t.retirements[r] == s.retirements[r])
              && (s.retirements[r].completed ==> t.retirements[r].completed)
    ensures forall r :: |s.retirements| <= r < |t.retirements| ==>
              r == |s.retirements| && t.retirements[r].pump == p && t.pumps[p].retirement == Some(r)
                  && Get(t.tombs, s.pumps[p].topic) == Some(r)
    ensures forall k :: k != s.pumps[p].topic ==> Get(t.tombs, k) == Get(s.tombs, k)
    ensures |t.retirements| == |s.retirements| ==> t.tombs == s.tombs && t.pumps[p].retirement == s.pumps[p].retirement
    ensures |t.retirements| > |s.retirements| ==> s.pumps[p].retirement.None?
  {
    hide LiveNumbers, TombNumbers, OpenNumbers, StageNumbers;
  }

  lemma LocalTombs(s: State, t: State, p: nat)
    requires Numbered(s) && Local(s, t, p)
    ensures TombNumbers(t.pumps, t.retirements, t.tombs)
  {
    hide RetirementsLocal, StageNumbers, PumpNumbers, RetirementNumbers, LiveNumbers, OpenNumbers;
    Others(s, t, p);
    forall k | k in t.tombs
      ensures t.tombs[k] < |t.retirements| && t.retirements[t.tombs[k]].pump < |t.pumps|
              && t.pumps[t.retirements[t.tombs[k]].pump].topic == k
    {
      if k != s.pumps[p].topic {
        assert Get(t.tombs, k) == Get(s.tombs, k);
      } else if |t.retirements| > |s.retirements| {
        assert t.retirements[|s.retirements|].pump == p;
      }
    }
  }

  lemma LocalPairs(s: State, t: State, p: nat)
    requires Numbered(s) && Local(s, t, p) && PumpFits(t, p)
    ensures RetirementNumbers(t.pumps, t.retirements) && PumpNumbers(t.pumps, t.retirements)
  {
    hide Fits, Own, PumpFits, RetirementsLocal, StageNumbers, LiveNumbers, OpenNumbers, TombNumbers;
    FitsHere(t, p);
    Others(s, t, p);
  }

  lemma LocalNumbered(s: State, t: State, p: nat)
    requires Numbered(s) && Local(s, t, p) && PumpFits(t, p)
    ensures Numbered(t)
  {
    hide Fits, Own, PumpFits, RetirementsLocal, StageNumbers, PumpNumbers, RetirementNumbers, TombNumbers;
    FitsHere(t, p);
    LocalTombs(s, t, p);
    LocalPairs(s, t, p);
    assert OpenNumbers(t.pumps, t.open) by {
      forall q | q in t.open ensures q < |t.pumps| { if q != p { assert q in s.open; } }
    }
  }

  lemma LocalKeeps(s: State, t: State, p: nat)
    requires Ok(s) && Local(s, t, p) && PumpFits(t, p)
    requires |t.retirements| > |s.retirements| ==> Get(s.live, s.pumps[p].topic) == Some(p)
    requires t.fencing.Some? && Occupied(t, p) && p !in t.fencing.value && Get(t.live, s.pumps[p].topic) == Some(p) ==>
               t.pumps[p].retirement.Some?
    ensures Ok(t)
  {
    LocalNumbered(s, t, p);
    LocalPumps(s, t, p);
    LocalCovered(s, t, p);
    LocalOwnTomb(s, t, p);
    LocalFencing(s, t, p);
    LocalLive(s, t, p);
  }

  lemma LocalLive(s: State, t: State, p: nat)
    requires Ok(s) && Local(s, t, p) && Numbered(t)
    ensures LiveOk(t)
  {
    hide PumpsOk, RetirementsOk, OwnTomb, Covered, RetirementsLocal, PumpNumbers, RetirementNumbers, TombNumbers,
        OpenNumbers, StageNumbers;
  }

  lemma LocalPumps(s: State, t: State, p: nat)
    requires Ok(s) && Local(s, t, p) && PumpFits(t, p) && Numbered(t)
    ensures PumpsOk(t) && RetirementsOk(t)
  {
    hide PumpOk, RetirementOk, Covered, OwnTomb, FencingOk, RetirementsLocal, LiveNumbers, TombNumbers, OpenNumbers,
        StageNumbers;
    Others(s, t, p);
    forall q | 0 <= q < |t.pumps| ensures PumpOk(t.pumps[q], q in t.open, Attached(t, q)) {
      if q != p { assert Attached(t, q) == Attached(s, q); }
    }
    forall r | 0 <= r < |t.retirements|
      ensures RetirementOk(t.retirements[r], t.pumps[t.retirements[r].pump], t.retirements[r].pump in t.open)
    {
      if t.retirements[r].pump != p { assert t.retirements[r] == s.retirements[r]; }
    }
  }

  lemma LocalCovered(s: State, t: State, p: nat)
    requires Ok(s) && Local(s, t, p) && PumpFits(t, p) && Numbered(t)
    requires |t.retirements| > |s.retirements| ==> Get(s.live, s.pumps[p].topic) == Some(p)
    ensures Covered(t)
  {
    hide Fits, Own, PumpFits, PumpOk, RetirementOk, PumpsOk, RetirementsOk, FencingOk, RetirementsLocal;
    hide LiveNumbers, TombNumbers, OpenNumbers, StageNumbers;
    FitsHere(t, p);
    Others(s, t, p);
    forall q | 0 <= q < |t.pumps| && Occupied(t, q)
      ensures var pump := t.pumps[q];
              if pump.retirement.None? then Get(t.live, pump.topic) == Some(q)
              else Get(t.tombs, pump.topic) == pump.retirement && !t.retirements[pump.retirement.value].completed
    {
      if q != p {
        OtherCovered(s, t, p, q);
      }
    }
  }

  lemma OtherCovered(s: State, t: State, p: nat, q: nat)
    requires Ok(s) && Local(s, t, p) && Numbered(t) && q < |t.pumps| && q != p && Occupied(t, q)
    requires |t.retirements| > |s.retirements| ==> Get(s.live, s.pumps[p].topic) == Some(p)
    ensures var pump := t.pumps[q];
            if pump.retirement.None? then Get(t.live, pump.topic) == Some(q)
            else Get(t.tombs, pump.topic) == pump.retirement && !t.retirements[pump.retirement.value].completed
  {
    hide PumpsOk, RetirementsOk, FencingOk, RetirementsLocal, LiveNumbers, TombNumbers, OpenNumbers, StageNumbers;
    Others(s, t, p);
    assert Occupied(s, q);
  }

  lemma LocalOwnTomb(s: State, t: State, p: nat)
    requires Ok(s) && Local(s, t, p) && Numbered(t)
    requires |t.retirements| > |s.retirements| ==> Get(s.live, s.pumps[p].topic) == Some(p)
    ensures OwnTomb(t)
  {
    hide PumpsOk, RetirementsOk, FencingOk, Covered, RetirementsLocal, PumpNumbers, RetirementNumbers, LiveNumbers,
        OpenNumbers, StageNumbers;
    Others(s, t, p);
    forall k | k in t.live && k in t.tombs && !t.retirements[t.tombs[k]].completed
      ensures t.retirements[t.tombs[k]].pump == t.live[k]
    {
      assert k in s.live && t.live[k] == s.live[k];
      if k != s.pumps[p].topic {
        assert Get(t.tombs, k) == Get(s.tombs, k);
      } else if |t.retirements| > |s.retirements| {
        assert t.retirements[|s.retirements|].pump == p;
      }
    }
  }

  lemma LocalFencing(s: State, t: State, p: nat)
    requires Ok(s) && Local(s, t, p) && Numbered(t)
    requires t.fencing.Some? && Occupied(t, p) && p !in t.fencing.value && Get(t.live, s.pumps[p].topic) == Some(p) ==>
               t.pumps[p].retirement.Some?
    ensures FencingOk(t)
  {
    hide PumpsOk, RetirementsOk, OwnTomb, Covered, RetirementsLocal, PumpNumbers, RetirementNumbers, TombNumbers,
        OpenNumbers, StageNumbers;
  }

  // ----- Every event keeps the invariants -----

  lemma OkIsNumbered(s: State)
    requires Ok(s)
    ensures Numbered(s)
  {
  }

  lemma LiveInRange(s: State)
    requires Ok(s)
    ensures forall p :: p in s.live.Values ==> p < |s.pumps|
  {
    forall p | p in s.live.Values ensures p < |s.pumps| {
      var t :| t in s.live && s.live[t] == p;
    }
  }

  lemma RetirementInRange(s: State, p: nat)
    requires Ok(s) && p < |s.pumps|
    ensures s.pumps[p].retirement.Some? ==> s.pumps[p].retirement.value < |s.retirements|
  {
  }

  lemma SeenInRange(s: State, p: nat)
    requires Ok(s) && p < |s.pumps| && s.pumps[p].stage.Saw? && s.pumps[p].stage.seen.Some?
    ensures s.pumps[p].stage.seen.value < |s.retirements|
  {
    hide PumpsOk, RetirementsOk, Covered, OwnTomb, FencingOk, LiveOk;
  }

  predicate SameOwner(pump: Pump, was: Pump) {
    && pump.topic == was.topic && pump.generation == was.generation
    && pump.retirement == was.retirement && pump.accepting == was.accepting
  }

  /** A change of one pump's own fields. */
  lemma SetPumpKeeps(s: State, p: nat, pump: Pump, gained: set<nat>)
    requires Ok(s) && p < |s.pumps| && SameOwner(pump, s.pumps[p])
    requires gained <= {p}
    requires var t := SetPump(s, p, pump).(open := s.open + gained);
             PumpFits(t, p) && (Occupied(t, p) ==> Occupied(s, p))
    ensures Ok(SetPump(s, p, pump).(open := s.open + gained))
  {
    hide Ok, Numbered, PumpOk, RetirementOk;
    At(s, p);
    LocalKeeps(s, SetPump(s, p, pump).(open := s.open + gained), p);
  }

  /** A change of one pump's own fields that opens nothing. */
  lemma PumpKeeps(s: State, p: nat, pump: Pump)
    requires Ok(s) && p < |s.pumps| && SameOwner(pump, s.pumps[p])
    requires Fits(pump, p, p in s.open, Get(s.live, pump.topic), Get(s.tombs, pump.topic), Own(s, p))
    requires pump.stage == Subscribing ==> s.pumps[p].stage == Subscribing
    ensures Ok(SetPump(s, p, pump))
  {
    hide Ok, Fits, Get;
    assert SetPump(s, p, pump).(open := s.open + {}) == SetPump(s, p, pump);
    SetPumpKeeps(s, p, pump, {});
  }

  lemma SubscribeKeeps(s: State, p: nat)
    requires Ok(s) && AtStage(s, p, Subscribing)
    ensures Ok(SetStage(s, p, Candidate).(open := s.open + {p}))
  {
    var u := SetPump(s, p, s.pumps[p].(stage := Candidate)).(open := s.open + {p});
    assert Own(u, p) == Own(s, p);
    hide Ok, Get, Own;
    At(s, p);
    SetPumpKeeps(s, p, s.pumps[p].(stage := Candidate), {p});
  }

  lemma SubscribeFailsKeeps(s: State, p: nat)
    requires Ok(s) && AtStage(s, p, Subscribing)
    ensures Ok(SetStage(s, p, BootstrapFailed))
  {
    hide Ok, Get, Own;
    At(s, p);
    PumpKeeps(s, p, s.pumps[p].(stage := BootstrapFailed));
  }

  lemma ReadyKeeps(s: State, p: nat)
    requires Ok(s) && AtStage(s, p, Ready)
    ensures Ok(SetStage(s, p, InReceive)) && (!s.pumps[p].accepting ==> Ok(SetStage(s, p, Final)))
  {
    hide Ok, Get, Own;
    At(s, p);
    PumpKeeps(s, p, s.pumps[p].(stage := InReceive));
    if !s.pumps[p].accepting { PumpKeeps(s, p, s.pumps[p].(stage := Final)); }
  }

  lemma ReceivedKeeps(s: State, p: nat)
    requires Ok(s) && AtStage(s, p, InReceive)
    ensures Ok(SetStage(s, p, Returned))
  {
    hide Ok, Get, Own;
    At(s, p);
    PumpKeeps(s, p, s.pumps[p].(stage := Returned));
  }

  lemma DeliverKeeps(s: State, p: nat)
    requires Ok(s) && AtStage(s, p, Returned)
    ensures Ok(SetStage(s, p, Ready))
  {
    hide Ok, Get, Own;
    At(s, p);
    PumpKeeps(s, p, s.pumps[p].(stage := Ready));
  }

  lemma DeliverFailedKeeps(s: State, p: nat)
    requires Ok(s) && AtStage(s, p, Returned)
    ensures Ok(SetPump(s, p, s.pumps[p].(failed := true, stage := Final)))
  {
    hide Ok, Get, Own;
    At(s, p);
    PumpKeeps(s, p, s.pumps[p].(failed := true, stage := Final));
  }

  lemma LateDeliverKeeps(s: State, p: nat)
    requires Ok(s) && LockFree(s) && AtStage(s, p, Returned) && !Live(s, p)
    ensures Ok(SetStage(s, p, Final))
  {
    hide Ok, Own;
    At(s, p);
    PumpKeeps(s, p, s.pumps[p].(stage := Final));
  }

  /** The two places where a worker reports its failure through the pump. */
  lemma ReportKeeps(s: State, p: nat, failed: bool)
    requires Ok(s) && (AtStage(s, p, BootstrapFailed) || AtStage(s, p, Faulted)) && (s.pumps[p].accepting ==> failed)
    ensures Ok(SetPump(s, p, s.pumps[p].(failed := failed, stage := Final)))
  {
    hide Ok, Get, Own;
    At(s, p);
    PumpKeeps(s, p, s.pumps[p].(failed := failed, stage := Final));
  }

  lemma ReadKeeps(s: State, p: nat)
    requires Ok(s) && AtStage(s, p, Final)
    ensures Ok(SetStage(s, p, Saw(s.pumps[p].retirement)))
  {
    hide Ok, Get, Own;
    At(s, p);
    PumpKeeps(s, p, s.pumps[p].(stage := Saw(s.pumps[p].retirement)));
  }

  lemma ClosedKeeps(s: State, p: nat)
    requires Ok(s) && Enabled(s, WorkerClosed(p))
    ensures Ok(SetStage(s, p, if s.pumps[p].published then Stopped else Final))
  {
    hide Ok, Get;
    At(s, p);
    PumpKeeps(s, p, s.pumps[p].(stage := if s.pumps[p].published then Stopped else Final));
  }

  lemma StopKeeps(s: State, p: nat)
    requires Ok(s) && Enabled(s, WorkerStops(p))
    ensures Ok(SetStage(s, p, Stopped))
  {
    hide Ok, Get, Own;
    At(s, p);
    PumpKeeps(s, p, s.pumps[p].(stage := Stopped));
  }

  lemma PlaceholderFits(s: State, p: nat, r: nat)
    requires Ok(s) && Enabled(s, FinishPlaceholder(p)) && r == s.pumps[p].stage.seen.value
    ensures var u := SetStage(SetRetirement(s, r, s.retirements[r].(completed := true)), p, Stopped);
            PumpFits(u, p) && s.pumps[p].retirement == Some(r) && s.retirements[r].pump == p && !Occupied(u, p)
  {
    hide Ok, Numbered, Get;
    At(s, p);
  }

  lemma PlaceholderKeeps(s: State, p: nat, r: nat)
    requires Ok(s) && Enabled(s, FinishPlaceholder(p)) && r == s.pumps[p].stage.seen.value
    ensures Ok(SetStage(SetRetirement(s, r, s.retirements[r].(completed := true)), p, Stopped))
  {
    PlaceholderFits(s, p, r);
    hide Ok, Numbered, PumpFits, Get;
    At(s, p);
    LocalKeeps(s, SetStage(SetRetirement(s, r, s.retirements[r].(completed := true)), p, Stopped), p);
  }

  lemma AdoptKeeps(s: State, p: nat, r: nat)
    requires Ok(s) && Enabled(s, AdoptRetirement(p)) && r == s.pumps[p].stage.seen.value
    ensures Ok(SetStage(SetRetirement(s, r, s.retirements[r].(free := false, worker := Begun)), p, Closing(r)))
  {
    hide Ok, Numbered;
    At(s, p);
    LocalKeeps(s, SetStage(SetRetirement(s, r, s.retirements[r].(free := false, worker := Begun)), p, Closing(r)), p);
  }

  /** A pump of a topic whose live pump it is gets its retirement and its tombstone. */
  lemma EntombKeeps(s: State, t: State, p: nat, pump: Pump, attached: bool, free: bool, runs: bool)
    requires Ok(s) && p < |s.pumps| && s.pumps[p].retirement.None? && Get(s.live, s.pumps[p].topic) == Some(p)
    requires pump.topic == s.pumps[p].topic && pump.generation == s.pumps[p].generation
             && pump.retirement == Some(|s.retirements|)
    requires t.pumps == s.pumps[p := pump] && t.open == s.open && t.connected == s.connected
             && t.generation == s.generation
    requires AcceptingLocal(s, t, p)
    requires t.retirements == s.retirements + [Tombstone(p, attached, free, runs)]
    requires t.tombs == s.tombs[pump.topic := |s.retirements|]
    requires t.live == s.live || (t.live == s.live - {pump.topic} && t.fencing.None?)
    requires t.fencing == s.fencing || (s.fencing.Some? && t.fencing == Some(s.fencing.value - {p}))
    requires PumpOk(pump, p in s.open, attached) && StageNumbers(pump) && !pump.stage.Closing?
    requires (runs ==> attached) && (attached ==> p in s.open)
    ensures Ok(t)
  {
    hide Ok, Numbered, PumpOk;
    assert Entombed(s.retirements, t.retirements, s.tombs, t.tombs, p, s.pumps[p], pump);
    assert Own(t, p) == Some(Tombstone(p, attached, free, runs));
    LocalKeeps(s, t, p);
  }

  lemma StaleKeeps(s: State, p: nat, free: bool, runs: bool, next: Stage)
    requires Ok(s) && LockFree(s) && AtStage(s, p, Candidate) && next in {Final, Faulted}
             && (next == Final ==> !Live(s, p))
    requires s.pumps[p].retirement.Some? ==> s.pumps[p].retirement.value < |s.retirements|
    ensures Ok(CloseStale(s, p, free, runs, next))
  {
    hide Ok, Numbered;
    At(s, p);
    LocalKeeps(s, CloseStale(s, p, free, runs, next), p);
  }

  lemma PublishKeeps(s: State, p: nat)
    requires Ok(s) && AtStage(s, p, Candidate) && Live(s, p)
    ensures Ok(SetPump(s, p, s.pumps[p].(published := true, stage := Ready)))
  {
    hide Ok, Get, Own;
    At(s, p);
    PumpKeeps(s, p, s.pumps[p].(published := true, stage := Ready));
  }

  lemma PumpOf(s: State, r: nat)
    requires Ok(s) && r < |s.retirements|
    ensures s.retirements[r].pump < |s.pumps| && s.pumps[s.retirements[r].pump].retirement == Some(r)
  {
    hide PumpsOk, RetirementsOk, Covered, OwnTomb, FencingOk, LiveOk;
  }

  lemma CloseKeeps(s: State, r: nat, who: Closer)
    requires Ok(s) && Enabled(s, CloseReturns(r, who))
    ensures Ok(SetRetirement(s, r, s.retirements[r].Closes(who, Ended)).(open := s.open - {s.retirements[r].pump}))
  {
    hide Ok, Numbered;
    var p := s.retirements[r].pump;
    PumpOf(s, r);
    At(s, p);
    LocalKeeps(s, SetRetirement(s, r, s.retirements[r].Closes(who, Ended)).(open := s.open - {p}), p);
  }

  lemma CompleteKeeps(s: State, r: nat)
    requires Ok(s) && Enabled(s, Completes(r))
    ensures Ok(SetRetirement(s, r, s.retirements[r].(completed := true)))
  {
    hide Ok, Numbered;
    var p := s.retirements[r].pump;
    PumpOf(s, r);
    At(s, p);
    LocalKeeps(s, SetRetirement(s, r, s.retirements[r].(completed := true)), p);
  }

  /** A pump that keeps its retirement, or needs none, stops accepting. */
  lemma ShutKeeps(s: State, t: State, p: nat)
    requires Ok(s) && p < |s.pumps|
    requires t.pumps == s.pumps[p := s.pumps[p].(accepting := false)]
    requires t.open == s.open && t.retirements == s.retirements && t.tombs == s.tombs && t.connected == s.connected
             && t.generation == s.generation
    requires s.pumps[p].accepting ==> s.pumps[p].topic !in t.live || (t.fencing.Some? && p !in t.fencing.value)
    requires t.live == s.live || (t.live == s.live - {s.pumps[p].topic} && Get(s.live, s.pumps[p].topic) == Some(p)
                                  && t.fencing.None?)
    requires t.fencing == s.fencing || (s.fencing.Some? && t.fencing == Some(s.fencing.value - {p}))
    requires s.pumps[p].retirement.None? ==> !Occupied(s, p)
    ensures Ok(t)
  {
    assert Own(t, p) == Own(s, p);
    hide Ok, Numbered, Get, Own;
    At(s, p);
    LocalKeeps(s, t, p);
  }

  lemma FailedNotOccupied(s: State, p: nat)
    requires Ok(s) && p < |s.pumps| && s.pumps[p].failed && !s.pumps[p].published && s.pumps[p].retirement.None?
    ensures !Occupied(s, p)
  {
    At(s, p);
  }

  lemma TerminalKeeps(s: State, t: Topic, free: bool, runs: bool)
    requires Ok(s) && Enabled(s, CallerTerminal(t, free, runs))
    ensures Ok(Terminal(s, t, free, runs))
  {
    hide Ok, Numbered;
    var p := s.live[t];
    At(s, p);
    var u := Terminal(s, t, free, runs);
    if s.pumps[p].published && s.pumps[p].retirement.None? {
      EntombKeeps(s, u, p, u.pumps[p], true, free, runs);
    } else {
      if s.pumps[p].retirement.None? { FailedNotOccupied(s, p); }
      ShutKeeps(s, u, p);
    }
  }

  lemma FenceEntombs(s: State, p: nat, reentrant: bool, free: bool, runs: bool)
    requires Ok(s) && Enabled(s, FencePump(p, reentrant, free, runs))
    requires s.pumps[p].retirement.None? && (s.pumps[p].published || s.pumps[p].stage != Stopped)
    ensures Ok(Fence(s, p, reentrant, free, runs))
  {
    hide Ok, Numbered, Own;
    At(s, p);
    var u := Fence(s, p, reentrant, free, runs);
    var published := s.pumps[p].published;
    EntombKeeps(s, u, p, u.pumps[p], published, published && (free || reentrant), published && runs && !reentrant);
  }

  lemma FenceKeeps(s: State, p: nat, reentrant: bool, free: bool, runs: bool)
    requires Ok(s) && Enabled(s, FencePump(p, reentrant, free, runs))
    ensures Ok(Fence(s, p, reentrant, free, runs))
  {
    if s.pumps[p].retirement.None? && (s.pumps[p].published || s.pumps[p].stage != Stopped) {
      FenceEntombs(s, p, reentrant, free, runs);
    } else {
      hide Ok, Numbered, Own;
      At(s, p);
      ShutKeeps(s, Fence(s, p, reentrant, free, runs), p);
    }
  }

  lemma ConnectKeeps(s: State)
    requires Ok(s) && !s.connected
    ensures Ok(s.(connected := true, generation := s.generation + 1))
  {
    hide PumpOk, RetirementOk;
  }

  lemma BeginKeeps(s: State)
    requires Ok(s) && LockFree(s)
    ensures Ok(s.(fencing := Some(s.live.Values)))
  {
    hide PumpOk, RetirementOk;
    assert forall t :: t in s.live ==> s.live[t] in s.live.Values;
  }

  lemma EndKeeps(s: State)
    requires Ok(s) && s.fencing == Some({})
    ensures Ok(s.(fencing := None, live := map[], connected := false, generation := s.generation + 1))
  {
    hide PumpOk, RetirementOk;
  }

  lemma SamePumps(s: State, u: State)
    requires Ok(s) && Numbered(u) && u.pumps == s.pumps && u.retirements == s.retirements && u.open == s.open
    ensures PumpsOk(u) && RetirementsOk(u)
  {
    hide PumpOk, RetirementOk, Covered, OwnTomb, FencingOk, LiveNumbers, TombNumbers, OpenNumbers, StageNumbers;
    assert forall q :: 0 <= q < |s.pumps| ==> Attached(u, q) == Attached(s, q);
  }

  lemma DropNumbered(s: State, u: State, r: nat)
    requires Numbered(s) && u == s.(tombs := map t | t in s.tombs && s.tombs[t] != r :: s.tombs[t])
    ensures Numbered(u)
  {
    hide PumpNumbers, RetirementNumbers, LiveNumbers, OpenNumbers, StageNumbers;
  }

  lemma DropCovered(s: State, u: State, r: nat)
    requires Ok(s) && Numbered(u) && r < |s.retirements| && s.retirements[r].completed
    requires u == s.(tombs := map t | t in s.tombs && s.tombs[t] != r :: s.tombs[t])
    ensures Covered(u)
  {
    hide PumpsOk, RetirementsOk, FencingOk, OwnTomb, RetirementNumbers, LiveNumbers, TombNumbers, OpenNumbers,
        StageNumbers;
    assert forall q :: 0 <= q < |s.pumps| ==> Occupied(u, q) == Occupied(s, q);
  }

  lemma DropOwnTomb(s: State, u: State, r: nat)
    requires Ok(s) && Numbered(u)
    requires u == s.(tombs := map t | t in s.tombs && s.tombs[t] != r :: s.tombs[t])
    ensures OwnTomb(u)
  {
    hide PumpsOk, RetirementsOk, FencingOk, Covered, PumpNumbers, RetirementNumbers, OpenNumbers, StageNumbers;
  }

  lemma DropLive(s: State, u: State, r: nat)
    requires Ok(s) && Numbered(u)
    requires u == s.(tombs := map t | t in s.tombs && s.tombs[t] != r :: s.tombs[t])
    ensures LiveOk(u)
  {
    hide PumpsOk, RetirementsOk, Covered, OwnTomb, FencingOk, PumpNumbers, RetirementNumbers, TombNumbers, OpenNumbers,
        StageNumbers;
  }

  lemma DropKeeps(s: State, r: nat)
    requires Ok(s) && Enabled(s, DropTomb(r))
    ensures Ok(s.(tombs := map t | t in s.tombs && s.tombs[t] != r :: s.tombs[t]))
  {
    hide Ok, Numbered, PumpsOk, RetirementsOk, Covered, OwnTomb, FencingOk, LiveOk;
    var u := s.(tombs := map t | t in s.tombs && s.tombs[t] != r :: s.tombs[t]);
    OkIsNumbered(s);
    DropNumbered(s, u, r);
    SamePumps(s, u);
    NotFencing(u);
    DropCovered(s, u, r);
    DropOwnTomb(s, u, r);
    DropLive(s, u, r);
    AllOk(u);
  }

  lemma DropAnyKeeps(s: State, r: nat)
    requires Ok(s) && s.fencing.None? && r < |s.retirements| && s.retirements[r].completed
    ensures Ok(s.(tombs := map t | t in s.tombs && s.tombs[t] != r :: s.tombs[t]))
  {
    hide Ok;
    if r in s.tombs.Values {
      DropKeeps(s, r);
    } else {
      DropNothing(s.tombs, r);
    }
  }

  lemma DropNothing(tombs: map<Topic, nat>, r: nat)
    requires r !in tombs.Values
    ensures (map t | t in tombs && tombs[t] != r :: tombs[t]) == tombs
  {
    assert forall t :: t in tombs ==> tombs[t] in tombs.Values;
  }

  /** Pruning a topic's finished tombstone. */
  lemma PruneKeeps(s: State, t: Topic)
    requires Ok(s) && s.fencing.None? && t in s.tombs && s.tombs[t] < |s.retirements|
             && s.retirements[s.tombs[t]].completed
    ensures Ok(s.(tombs := s.tombs - {t}))
  {
    hide Ok, Numbered;
    OkIsNumbered(s);
    DropKeeps(s, s.tombs[t]);
    OneTomb(s, t);
  }

  lemma OneTomb(s: State, t: Topic)
    requires Numbered(s) && t in s.tombs
    ensures (map k | k in s.tombs && s.tombs[k] != s.tombs[t] :: s.tombs[k]) == s.tombs - {t}
  {
    hide PumpNumbers, RetirementNumbers, LiveNumbers, OpenNumbers, StageNumbers;
    forall k | k in s.tombs && s.tombs[k] == s.tombs[t] ensures k == t {
      assert s.pumps[s.retirements[s.tombs[k]].pump].topic == k;
    }
  }

  /** A new pump of topic `t`, with a tombstone of its own or without one. */
  predicate Added(s: State, u: State, t: Topic) {
    var p := |s.pumps|;
    && |u.pumps| == p + 1 && u.connected == s.connected && u.generation == s.generation
    && u.pumps[p].generation == s.generation
    && (u.pumps[p].accepting ==> u.live == s.live[t := p] && u.pumps[p].stage == Subscribing)
    && (u.live != s.live ==> u.pumps[p].accepting)
    && u.pumps == s.pumps + [u.pumps[p]] && u.open == s.open && u.fencing == s.fencing
    && u.pumps[p].topic == t && u.pumps[p].stage in {Subscribing, Never} && !u.pumps[p].published && !u.pumps[p].failed
    && (forall k :: k in s.tombs && k != t ==> k in u.tombs && u.tombs[k] == s.tombs[k])
    && (forall k :: k in u.tombs && k != t ==> k in s.tombs)
    && (u.live == s.live || (u.live == s.live[t := p] && u.pumps[p].retirement.None?))
    && (if u.pumps[p].retirement.None? then
          && u.retirements == s.retirements && t !in u.tombs
          && (u.pumps[p].stage == Subscribing ==> u.live == s.live[t := p])
        else
          && u.pumps[p].retirement == Some(|s.retirements|) && !u.pumps[p].accepting
             && Get(u.tombs, t) == Some(|s.retirements|)
          && u.retirements == s.retirements + [Tombstone(p, false, false, false)])
  }

  lemma AddedMaps(s: State, u: State, t: Topic)
    requires Numbered(s) && Added(s, u, t)
    ensures LiveNumbers(u.pumps, u.live) && TombNumbers(u.pumps, u.retirements, u.tombs) && OpenNumbers(u.pumps, u.open)
  {
    hide StageNumbers, PumpNumbers;
    assert forall r :: 0 <= r < |s.retirements| ==> u.retirements[r] == s.retirements[r];
    assert forall q :: 0 <= q < |s.pumps| ==> u.pumps[q] == s.pumps[q];
  }

  lemma AddedNumbered(s: State, u: State, t: Topic)
    requires Numbered(s) && Added(s, u, t)
    ensures Numbered(u)
  {
    AddedMaps(s, u, t);
    hide StageNumbers, LiveNumbers, TombNumbers, OpenNumbers, Get;
    assert forall r :: 0 <= r < |s.retirements| ==> u.retirements[r] == s.retirements[r];
    assert forall q :: 0 <= q < |s.pumps| ==> u.pumps[q] == s.pumps[q];
    assert StageNumbers(u.pumps[|s.pumps|]) by { NewStage(u.pumps[|s.pumps|]); }
  }

  lemma NewStage(pump: Pump)
    requires pump.stage in {Subscribing, Never}
    ensures StageNumbers(pump)
  {
  }

  lemma AddedPumps(s: State, u: State, t: Topic)
    requires Ok(s) && Added(s, u, t) && Numbered(u)
    ensures PumpsOk(u) && RetirementsOk(u)
  {
    hide Covered, OwnTomb, FencingOk, LiveNumbers, TombNumbers, StageNumbers;
    assert forall q :: 0 <= q < |s.pumps| ==> u.pumps[q] == s.pumps[q];
    forall q | 0 <= q < |u.pumps| ensures PumpOk(u.pumps[q], q in u.open, Attached(u, q)) {
      if q < |s.pumps| { assert Attached(u, q) == Attached(s, q); }
    }
  }

  lemma AddedCovered(s: State, u: State, t: Topic)
    requires Ok(s) && Added(s, u, t) && Numbered(u) && Unfenced(s, t) && t !in s.live
    ensures Covered(u)
  {
    hide PumpOk, RetirementOk, PumpsOk, RetirementsOk, OwnTomb, FencingOk, LiveNumbers, TombNumbers, StageNumbers,
        RetirementNumbers;
    assert forall q :: 0 <= q < |s.pumps| ==> u.pumps[q] == s.pumps[q];
    forall q | 0 <= q < |u.pumps| && Occupied(u, q)
      ensures var pump := u.pumps[q];
              if pump.retirement.None? then Get(u.live, pump.topic) == Some(q)
              else Get(u.tombs, pump.topic) == pump.retirement && !u.retirements[pump.retirement.value].completed
    {
      if q < |s.pumps| {
        assert Occupied(s, q);
        assert s.pumps[q].topic != t;
      }
    }
  }

  lemma AddedOwnTomb(s: State, u: State, t: Topic)
    requires Ok(s) && Added(s, u, t) && Numbered(u) && t !in s.live && s.fencing.None?
    ensures OwnTomb(u) && FencingOk(u)
  {
    hide PumpsOk, RetirementsOk, Covered, FencingOk, LiveNumbers, OpenNumbers, StageNumbers, RetirementNumbers,
        PumpNumbers;
    assert FencingOk(u) by { NotFencing(u); }
    forall k | k in u.live && k in u.tombs && !u.retirements[u.tombs[k]].completed
      ensures u.retirements[u.tombs[k]].pump == u.live[k]
    {
      assert k != t ==> k in s.live && k in s.tombs;
    }
  }

  lemma NotFencing(u: State)
    requires Numbered(u) && u.fencing.None?
    ensures FencingOk(u)
  {
  }

  lemma CreateAdds(s: State, t: Topic, launch: Launch)
    ensures Added(s, Create(s, t, launch), t)
  {
    var u := Create(s, t, launch);
    match launch
    case Launched => assert Added(s, u, t);
    case Unstarted => assert Added(s, u, t);
    case Ambiguous(runs) => assert Added(s, u, t);
  }

  lemma CreateKeeps(s: State, t: Topic, launch: Launch)
    requires Ok(s) && Enabled(s, CreatePump(t, launch))
    ensures Ok(Create(s, t, launch))
  {
    hide Added, Create, Ok, Numbered, PumpsOk, RetirementsOk, Covered, OwnTomb, FencingOk, LiveOk;
    var u := Create(s, t, launch);
    CreateAdds(s, t, launch);
    OkIsNumbered(s);
    AddedNumbered(s, u, t);
    AddedPumps(s, u, t);
    AddedCovered(s, u, t);
    AddedOwnTomb(s, u, t);
    AddedLive(s, u, t);
    AllOk(u);
  }

  lemma AllOk(s: State)
    requires Numbered(s) && PumpsOk(s) && RetirementsOk(s) && Covered(s) && OwnTomb(s) && FencingOk(s) && LiveOk(s)
    ensures Ok(s)
  {
  }

  lemma AddedLive(s: State, u: State, t: Topic)
    requires Ok(s) && Added(s, u, t) && Numbered(u) && t !in s.live && s.fencing.None? && s.connected
    ensures LiveOk(u)
  {
    hide PumpsOk, RetirementsOk, Covered, OwnTomb, FencingOk, OpenNumbers, StageNumbers, RetirementNumbers,
        PumpNumbers, TombNumbers;
    assert forall q :: 0 <= q < |s.pumps| ==> u.pumps[q] == s.pumps[q];
  }

  lemma AcceptingIsLive(s: State, p: nat)
    requires Ok(s) && p < |s.pumps|
    ensures s.pumps[p].accepting ==> Live(s, p)
  {
    hide Ok, PumpFits;
    At(s, p);
  }

  /** The steps of a worker. */
  lemma WorkerStepKeeps(s: State, e: Event)
    requires Ok(s) && Enabled(s, e)
    requires e.SubscribeReturns? || e.SubscribeFails? || e.ReportBootstrap? || e.ReportFault?
          || e.ReceiveBegins? || e.ReceiveReturns? || e.Deliver? || e.WorkerLeaves?
          || e.ReadRetirement? || e.WorkerClosed? || e.WorkerStops?
    ensures Numbered(s) && Ok(Step(s, e))
  {
    hide Ok, Numbered, Fence, Create, CloseStale, Terminal, Live, Unfenced, SetPump, SetStage, SetRetirement;
    OkIsNumbered(s);
    match e
    case SubscribeReturns(p) => SubscribeKeeps(s, p);
    case SubscribeFails(p) => SubscribeFailsKeeps(s, p);
    case ReportBootstrap(p) =>
      AcceptingIsLive(s, p);
      ReportKeeps(s, p, s.pumps[p].failed || Live(s, p));
    case ReportFault(p) => ReportKeeps(s, p, s.pumps[p].failed || s.pumps[p].accepting);
    case ReceiveBegins(p) => ReadyKeeps(s, p);
    case ReceiveReturns(p) => ReceivedKeeps(s, p);
    case Deliver(p, _) =>
      if Live(s, p) {
        DeliverKeeps(s, p);
        DeliverFailedKeeps(s, p);
      } else {
        LateDeliverKeeps(s, p);
      }
    case WorkerLeaves(p) => ReadyKeeps(s, p);
    case ReadRetirement(p) => ReadKeeps(s, p);
    case WorkerClosed(p) => ClosedKeeps(s, p);
    case WorkerStops(p) => StopKeeps(s, p);
  }

  lemma StepKeeps(s: State, e: Event)
    requires Ok(s) && Enabled(s, e)
    ensures Numbered(s) && Ok(Step(s, e))
  {
    hide Ok, Numbered, Fence, Create, CloseStale, Terminal, Live, Unfenced, SetPump, SetStage, SetRetirement;
    OkIsNumbered(s);
    match e
    case Connect => ConnectKeeps(s);
    case CreatePump(t, launch) => CreateKeeps(s, t, launch);
    case Publish(p, free, runs) =>
      RetirementInRange(s, p);
      if Live(s, p) { PublishKeeps(s, p); } else { StaleKeeps(s, p, free, runs, Final); }
    case PublicationFault(p, free, runs) =>
      RetirementInRange(s, p);
      StaleKeeps(s, p, free, runs, Faulted);
    case CallerTerminal(t, free, runs) => TerminalKeeps(s, t, free, runs);
    case BeginDisconnect => BeginKeeps(s);
    case FencePump(p, reentrant, free, runs) => FenceKeeps(s, p, reentrant, free, runs);
    case EndDisconnect => EndKeeps(s);
    case CloseReturns(r, who) => CloseKeeps(s, r, who);
    case Completes(r) => CompleteKeeps(s, r);
    case DropTomb(r) => DropKeeps(s, r);
    case FinishPlaceholder(p) => PlaceholderKeeps(s, p, s.pumps[p].stage.seen.value);
    case AdoptRetirement(p) => AdoptKeeps(s, p, s.pumps[p].stage.seen.value);
    case _ => WorkerStepKeeps(s, e);
  }
}
