/** The lifecycle critical sections of the Pulsar backend as methods on its mutable maps
    (src/scrapy_extension/backends/pulsar.py), each kept within the invariants that make
    subscriptions exclusive. */
module PulsarBackend {
  import opened Options
  import P = PulsarPumps
  import R = PulsarRuns
  import X = PulsarExclusive

  class Backend {
    var pumps: seq<P.Pump>
    var retirements: seq<P.Retirement>
    var live: map<P.Topic, nat>
    var tombs: map<P.Topic, nat>
    var connected: bool
    var generation: nat
    /** The pumps a disconnect that holds the lock has still to fence. */
    var fencing: Option<set<nat>>
    ghost var open: set<nat>

    ghost function View(): P.State
      reads this
    {
      P.State(pumps, retirements, live, tombs, connected, generation, fencing, open)
    }

    ghost predicate Valid()
      reads this
    {
      R.Ok(View()) && fencing.None?
    }

    constructor ()
      ensures Valid() && View() == X.Empty()
    {
      pumps, retirements, live, tombs := [], [], map[], map[];
      connected, generation := false, 0;
      fencing, open := None, {};
      new;
      X.EmptyOk();
    }

    method Connect()
      requires Valid()
      modifies this
      ensures Valid() && connected
      ensures View() == if old(connected) then old(View()) else P.Step(old(View()), P.Connect)
    {
      if connected { return; }
      R.StepKeeps(View(), P.Connect);
      connected, generation := true, generation + 1;
    }

    /** A new pump and the start of its worker. */
    method StartPump(topic: P.Topic, launch: P.Launch)
      modifies this
      ensures View() == P.Create(old(View()), topic, launch)
    {
      var p := |pumps|;
      tombs := tombs - {topic};
      var added := P.Pump(topic, generation, true, false, false, None, P.Subscribing);
      match launch {
        case Launched =>
          pumps := pumps + [added];
          live := live[topic := p];
        case Unstarted =>
          pumps := pumps + [added.(accepting := false, stage := P.Never)];
        case Ambiguous(runs) =>
          var r := |retirements|;
          var stage := if runs then P.Subscribing else P.Never;
          pumps := pumps + [added.(accepting := false, stage := stage, retirement := Some(r))];
          retirements := retirements + [P.Tombstone(p, false, false, false)];
          tombs := tombs[topic := r];
      }
    }

    /** One look of `_ensure_receive_pump`. */
    method EnsureReceivePump(topic: P.Topic, launch: P.Launch) returns (answer: X.Answer)
      requires Valid()
      modifies this
      ensures Valid() && (View(), answer) == X.Ensure(old(View()), topic, launch)
    {
      ghost var was := View();
      R.OkIsNumbered(was);
      X.EnsureKeeps(was, topic, launch);
      hide R.Ok, P.Numbered;
      if topic in tombs && retirements[tombs[topic]].completed {
        tombs := tombs - {topic};
      }
      assert View() == X.Pruned(was, topic);
      if topic in live && (topic !in tombs || pumps[live[topic]].retirement == Some(tombs[topic])) {
        return X.Serves(live[topic]);
      }
      if topic in tombs { return X.Waits; }
      if !connected { return X.Disconnected; }
      answer := X.Serves(|pumps|);
      StartPump(topic, launch);
    }

    /** `_new_consumer_retirement_locked`, and `_start_consumer_retirement_locked` when a
        thread runs the close. */
    method NewRetirement(p: nat, attached: bool, free: bool, runs: bool)
      requires p < |pumps|
      modifies this
      ensures View() == P.Entomb(old(View()), p, attached, free, runs)
      ensures fencing == old(fencing) && live == old(live) && open == old(open) && generation == old(generation)
      ensures |pumps| == |old(pumps)| && pumps[p].stage == old(pumps)[p].stage
              && pumps[p].accepting == old(pumps)[p].accepting
      ensures forall q :: 0 <= q < |pumps| && q != p ==> pumps[q] == old(pumps)[q]
    {
      var r := |retirements|;
      retirements := retirements + [P.Tombstone(p, attached, free, runs)];
      pumps := pumps[p := pumps[p].(retirement := Some(r))];
      tombs := tombs[pumps[p].topic := r];
    }

    /** What `disconnect` does to one live pump. */
    method FencePump(p: nat, reentrant: bool, free: bool, runs: bool)
      requires R.Ok(View()) && P.Enabled(View(), P.FencePump(p, reentrant, free, runs))
      modifies this
      ensures R.Ok(View()) && View() == P.Fence(old(View()), p, reentrant, free, runs)
      ensures fencing == Some(old(fencing).value - {p}) && live == old(live) && open == old(open)
              && generation == old(generation)
      ensures |pumps| == |old(pumps)| && pumps[p].stage == old(pumps)[p].stage && !pumps[p].accepting
      ensures forall q :: 0 <= q < |pumps| && q != p ==> pumps[q] == old(pumps)[q]
    {
      assert fencing.Some? && p < |pumps|;
      hide R.Ok, P.Numbered, P.Enabled, P.Entomb;
      R.FenceKeeps(View(), p, reentrant, free, runs);
      fencing := Some(fencing.value - {p});
      pumps := pumps[p := pumps[p].(accepting := false)];
      if pumps[p].retirement.None? {
        if pumps[p].published {
          NewRetirement(p, true, free || reentrant, runs && !reentrant);
        } else if pumps[p].stage != P.Stopped {
          NewRetirement(p, false, false, false);
        }
      }
    }

    /** The loop of `disconnect` over the live pumps, under the lifecycle lock. */
    method FenceAll(within: Option<nat>, free: nat -> bool, runs: nat -> bool)
      requires R.Ok(View()) && fencing.Some? && forall p :: p in fencing.value ==> p < |pumps|
      requires within.Some? ==> within.value < |pumps| && pumps[within.value].stage == P.InReceive
      modifies this
      ensures R.Ok(View()) && fencing == Some({})
      ensures live == old(live) && open == old(open) && generation == old(generation) && |pumps| == |old(pumps)|
      ensures forall p :: p in old(fencing).value ==> p < |pumps| && !pumps[p].accepting
      ensures forall p :: 0 <= p < |pumps| && p !in old(fencing).value ==> pumps[p] == old(pumps)[p]
    {
      hide R.Ok, P.Fence;
      while fencing.value != {}
        invariant R.Ok(View()) && fencing.Some? && fencing.value <= old(fencing).value
        invariant live == old(live) && open == old(open) && generation == old(generation) && |pumps| == |old(pumps)|
        invariant within.Some? ==> pumps[within.value].stage == P.InReceive
        invariant forall p :: p in old(fencing).value && p !in fencing.value ==> !pumps[p].accepting
        invariant forall p :: 0 <= p < |pumps| && p !in old(fencing).value ==> pumps[p] == old(pumps)[p]
        decreases fencing.value
      {
        var p :| p in fencing.value;
        FencePump(p, within == Some(p), free(p), runs(p));
      }
    }

    lemma StageOf(within: Option<nat>)
      requires within.Some? ==> P.AtStage(View(), within.value, P.InReceive)
      ensures within.Some? ==> within.value < |pumps| && pumps[within.value].stage == P.InReceive
    {
    }

    /** `disconnect` under the lifecycle lock: every live pump is fenced, and every one
        that may still be subscribed stands behind a tombstone before the topic map is
        cleared.  `within` is the pump whose receive call this disconnect runs in. */
    method Disconnect(within: Option<nat>, free: nat -> bool, runs: nat -> bool)
      requires Valid()
      requires within.Some? ==> P.AtStage(View(), within.value, P.InReceive)
      modifies this
      ensures Valid() && live == map[] && !connected && generation == old(generation) + 1 && open == old(open)
      ensures |pumps| == |old(pumps)|
      ensures forall p :: p in old(live).Values ==> p < |pumps| && !pumps[p].accepting
      ensures forall p :: 0 <= p < |pumps| && p !in old(live).Values ==> pumps[p] == old(pumps)[p]
    {
      hide R.Ok, P.Numbered, P.AtStage;
      R.LiveInRange(View());
      R.BeginKeeps(View());
      StageOf(within);
      fencing := Some(live.Values);
      FenceAll(within, free, runs);
      R.EndKeeps(View());
      fencing := None;
      live := map[];
      connected, generation := false, generation + 1;
    }

    /** A caller that finds its pump failed retires it so that a later poll can start
        another. */
    method RetireFailed(topic: P.Topic, free: bool, runs: bool)
      requires Valid() && P.Enabled(View(), P.CallerTerminal(topic, free, runs))
      modifies this
      ensures Valid() && View() == P.Terminal(old(View()), topic, free, runs) && topic !in live
    {
      hide R.Ok, P.Numbered, P.Live, P.Entomb;
      R.TerminalKeeps(View(), topic, free, runs);
      var p := live[topic];
      pumps := pumps[p := pumps[p].(accepting := false)];
      live := live - {topic};
      if pumps[p].published && pumps[p].retirement.None? {
        NewRetirement(p, true, free, runs);
      }
    }

    /** `_close_stale_pump_candidate`. */
    method CloseStale(p: nat, free: bool, runs: bool, next: P.Stage)
      requires p < |pumps| && (pumps[p].retirement.Some? ==> pumps[p].retirement.value < |retirements|)
      modifies this
      ensures View() == P.CloseStale(old(View()), p, free, runs, next)
    {
      if pumps[p].retirement.None? {
        NewRetirement(p, true, free, runs);
        pumps := pumps[p := pumps[p].(stage := next)];
      } else {
        var r := pumps[p].retirement.value;
        retirements := retirements[r := retirements[r].(attached := true, free := false, worker := P.Begun)];
        pumps := pumps[p := pumps[p].(stage := P.Closing(r))];
      }
    }

    /** The worker's publication of the consumer it subscribed. */
    method PublishCandidate(p: nat, free: bool, runs: bool)
      requires Valid() && P.AtStage(View(), p, P.Candidate)
      modifies this
      ensures Valid()
      ensures View() == if P.Live(old(View()), p)
              then P.SetPump(old(View()), p, old(pumps)[p].(published := true, stage := P.Ready))
                        else P.CloseStale(old(View()), p, free, runs, P.Final)
    {
      ghost var was := View();
      R.RetirementInRange(was, p);
      var pump := pumps[p];
      if pump.accepting && connected && generation == pump.generation && P.Get(live, pump.topic) == Some(p) {
        R.PublishKeeps(was, p);
        hide R.Ok, P.Numbered;
        pumps := pumps[p := pump.(published := true, stage := P.Ready)];
      } else {
        R.StaleKeeps(was, p, free, runs, P.Final);
        hide R.Ok, P.Numbered, P.CloseStale;
        CloseStale(p, free, runs, P.Final);
      }
    }

    /** The end of a worker that has read its pump's retirement: it finishes a placeholder,
        adopts a close that it finds unowned, or leaves everything alone. */
    method WorkerEnds(p: nat)
      requires Valid() && p < |pumps| && pumps[p].stage.Saw?
      modifies this
      ensures Valid()
      ensures var seen := old(pumps)[p].stage.seen;
              var was := old(View());
              if seen.None? then View() == P.SetStage(was, p, P.Stopped)
              else
                var r := seen.value;
                && r < |was.retirements|
                && var x := was.retirements[r];
                   View() ==
                     if !x.attached
                     then P.SetStage(P.SetRetirement(was, r, x.(completed := true)), p, P.Stopped)
                     else if x.free && old(pumps)[p].published
                     then P.SetStage(P.SetRetirement(was, r, x.(free := false, worker := P.Begun)), p, P.Closing(r))
                     else P.SetStage(was, p, P.Stopped)
    {
      hide R.Ok, P.Numbered;
      R.OkIsNumbered(View());
      if pumps[p].stage.seen.Some? { R.SeenInRange(View(), p); }
      var seen := pumps[p].stage.seen;
      if seen.Some? && !retirements[seen.value].attached {
        R.PlaceholderKeeps(View(), p, seen.value);
        retirements := retirements[seen.value := retirements[seen.value].(completed := true)];
        pumps := pumps[p := pumps[p].(stage := P.Stopped)];
      } else if seen.Some? && retirements[seen.value].free && pumps[p].published {
        R.AdoptKeeps(View(), p, seen.value);
        retirements := retirements[seen.value := retirements[seen.value].(free := false, worker := P.Begun)];
        pumps := pumps[p := pumps[p].(stage := P.Closing(seen.value))];
      } else {
        R.StopKeeps(View(), p);
        pumps := pumps[p := pumps[p].(stage := P.Stopped)];
      }
    }

    /** `_finish_consumer_retirement` after a close of the consumer has returned; a second
        closer finds the retirement completed. */
    method FinishRetirement(r: nat)
      requires Valid() && r < |retirements| && retirements[r].Closed()
      modifies this
      ensures Valid() && r < |retirements| && retirements[r].completed
      ensures forall t :: t in tombs <==> t in old(tombs) && old(tombs)[t] != r
      ensures forall t :: t in tombs ==> tombs[t] == old(tombs)[t]
    {
      hide R.Ok, P.Numbered;
      if !retirements[r].completed {
        R.CompleteKeeps(View(), r);
        retirements := retirements[r := retirements[r].(completed := true)];
      }
      ghost var done := View();
      R.DropAnyKeeps(done, r);
      tombs := map t | t in tombs && tombs[t] != r :: tombs[t];
    }
  }
}
