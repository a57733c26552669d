/** Consumer-group lag (src/scrapy_extension/backends/kafka.py, `_consumer_group_lag`). */
module KafkaLag {
  import opened Options
  import opened KafkaDelivery
  import opened KafkaProtocol
  import opened KafkaRuns

  datatype ResetPolicy = Earliest | Latest | NoReset

  /** What the broker answers.  A missing entry or a negative number is an invalid reply. */
  datatype Reply = Reply(ends: map<Partition, int>, beginnings: map<Partition, int>, committed: map<Partition, int>)

  predicate ValidReply(r: Reply, policy: ResetPolicy, tp: Partition) {
    && tp in r.ends && r.ends[tp] >= 0
    && tp in r.beginnings && r.beginnings[tp] >= 0
    && (if tp in r.committed then r.committed[tp] >= 0 else policy != NoReset)
  }

  /** Where the group would resume. */
  function ResumeAt(r: Reply, policy: ResetPolicy, tp: Partition): nat
    requires ValidReply(r, policy, tp)
  {
    if tp in r.committed then
      if r.beginnings[tp] > r.committed[tp] then r.beginnings[tp] else r.committed[tp]
    else if policy == Earliest then r.beginnings[tp]
    else r.ends[tp]
  }

  predicate Owed(r: Reply, policy: ResetPolicy, k: Key) {
    && ValidReply(r, policy, k.tp)
    && ResumeAt(r, policy, k.tp) <= k.offset < r.ends[k.tp]
  }

  function Range(tp: Partition, lo: nat, hi: int): set<Key> {
    set o: nat | lo <= o < hi :: Key(tp, o)
  }

  lemma {:induction false} RangeSize(tp: Partition, lo: nat, hi: int)
    ensures |Range(tp, lo, hi)| == if lo < hi then hi - lo else 0
    decreases hi - lo
  {
    if lo < hi {
      RangeSize(tp, lo + 1, hi);
      assert Range(tp, lo, hi) == Range(tp, lo + 1, hi) + {Key(tp, lo)};
    } else {
      assert Range(tp, lo, hi) == {};
    }
  }

  /** The lag is the number of offsets the assigned partitions still owe the group; an
      invalid reply for any of them fails the query. */
  method ConsumerGroupLag(assignment: set<Partition>, r: Reply, policy: ResetPolicy)
      returns (lag: Option<nat>, ghost owed: set<Key>)
    ensures lag.Some? <==> forall tp :: tp in assignment ==> ValidReply(r, policy, tp)
    ensures lag.Some? ==> lag.value == |owed|
    ensures lag.Some? ==> forall k: Key :: k in owed <==> k.tp in assignment && Owed(r, policy, k)
  {
    var total := 0;
    var rest := assignment;
    owed := {};
    while rest != {}
      invariant rest <= assignment
      invariant forall tp :: tp in assignment - rest ==> ValidReply(r, policy, tp)
      invariant total == |owed|
      invariant forall k: Key :: k in owed <==> k.tp in assignment - rest && Owed(r, policy, k)
      decreases rest
    {
      var tp :| tp in rest;
      if tp !in r.ends || r.ends[tp] < 0 { return None, {}; }
      if tp !in r.beginnings || r.beginnings[tp] < 0 { return None, {}; }
      var resume: nat;
      if tp !in r.committed {
        if policy == Earliest {
          resume := r.beginnings[tp];
        } else if policy == Latest {
          resume := r.ends[tp];
        } else {
          return None, {};
        }
      } else if r.committed[tp] < 0 {
        return None, {};
      } else {
        resume := if r.beginnings[tp] > r.committed[tp] then r.beginnings[tp] else r.committed[tp];
      }
      var owing := if r.ends[tp] > resume then r.ends[tp] - resume else 0;
      ghost var more := Range(tp, resume, r.ends[tp]);
      RangeSize(tp, resume, r.ends[tp]);
      assert owed !! more;
      assert ResumeAt(r, policy, tp) == resume;
      total := total + owing;
      owed := owed + more;
      rest := rest - {tp};
    }
    return Some(total), owed;
  }

  /** Records of the assigned partitions that are in flight and not acknowledged. */
  ghost predicate Unfinished(w: World, g: nat, assignment: set<Partition>, k: Key)
    requires g < |w.sessions|
  {
    k.tp in assignment && k.offset in w.sessions[g].h.Pending(k.tp) && k !in w.acked
  }

  /** The reply reports the committed offset of the partition, the log still holds it,
      and the end is past the delivered range. */
  predicate Current(w: World, s: Session, start: Partition -> nat, r: Reply, policy: ResetPolicy, tp: Partition) {
    && ValidReply(r, policy, tp)
    && tp in s.cursors && r.ends[tp] >= s.cursors[tp].frontier
    && (tp in r.committed <==> tp in w.committed)
    && (if tp in w.committed then r.committed[tp] == w.committed[tp].offset && r.beginnings[tp] <= r.committed[tp]
        else policy == Earliest && r.beginnings[tp] <= start(tp))
  }

  /** Under one reset offset per partition and a current reply, every unfinished record
      is owed, so the lag is at least their number. */
  lemma LagCoversUnfinished(log: Log, trace: seq<Event>, start: Partition -> nat, g: nat,
                            assignment: set<Partition>, r: Reply, policy: ResetPolicy,
                            owed: set<Key>, unfinished: set<Key>)
    requires forall i :: 0 <= i < |trace| ==> ResetsAt(trace[i], start)
    requires g < |Run(log, trace).sessions|
    requires forall tp :: tp in assignment ==>
               Current(Run(log, trace), Run(log, trace).sessions[g], start, r, policy, tp)
    requires forall k: Key :: k in owed <==> k.tp in assignment && Owed(r, policy, k)
    requires forall k: Key :: k in unfinished ==> Unfinished(Run(log, trace), g, assignment, k)
    ensures unfinished <= owed && |unfinished| <= |owed|
  {
    var w := Run(log, trace);
    RunOk(log, trace);
    OriginsRun(log, trace, start);
    hide Run, WorldOk, OriginsAt;
    forall k | k in unfinished ensures k in owed {
      UnfinishedIsOwed(log, w, start, g, k);
      assert Current(w, w.sessions[g], start, r, policy, k.tp);
    }
    SubsetSize(unfinished, owed);
  }

  lemma UnfinishedIsOwed(log: Log, w: World, start: Partition -> nat, g: nat, k: Key)
    requires WorldOk(log, w) && OriginsAt(w, start) && g < |w.sessions|
    requires k.offset in w.sessions[g].h.Pending(k.tp) && k !in w.acked
    ensures k.tp in w.sessions[g].cursors
    ensures start(k.tp) <= k.offset < w.sessions[g].cursors[k.tp].frontier
    ensures k.tp in w.committed ==> w.committed[k.tp].offset <= k.offset
  {
    var s := w.sessions[g];
    assert SessionOk(log, w.acked, w.lastAttempt, s);
    assert CohortOk(log, w.acked, k.tp, s.cursors[k.tp], s.h.inFlight[k.tp], s.h.watermarks[k.tp], s.h.highWater[k.tp]);
    assert CursorsAt(s.cursors, start);
    assert Key(k.tp, k.offset) in log;
    if k.tp in w.committed {
      assert Covered(log, w.acked, k.tp, w.committed[k.tp].origin, w.committed[k.tp].offset);
    }
  }

  lemma {:induction false} SubsetSize<T>(a: set<T>, b: set<T>)
    requires a <= b
    ensures |a| <= |b|
  {
    if a != {} {
      var x :| x in a;
      SubsetSize(a - {x}, b - {x});
    }
  }
}
