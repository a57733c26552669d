/** Committed offsets can go back, from one cohort to the next, and by a bare
    acknowledgement within one.  Concrete runs of the Kafka delivery protocol over a log
    of three records. */
module KafkaRegress {
  import opened Options
  import opened KafkaDelivery
  import opened KafkaProtocol
  import opened KafkaRuns

  const TP := Partition("requests", 0)

  ghost function ThreeRecords(): Log {
    iset k: Key | k.tp == TP && k.offset < 3
  }

  function At(offset: nat): Key { Key(TP, offset) }

  function TokenOf(offset: nat, attempt: nat): Token { Token(TP, offset, 1, 1, attempt) }

  /** The handles with one cohort. */
  function Cohort(pending: set<nat>, base: nat, high: nat, attempts: map<Key, nat>, group: set<nat>): Handles {
    Handles(1, 1, false, map[TP := pending], map[TP := base], map[TP := high], attempts,
            if group == {} then map[] else map[TP := group], None)
  }

  function Before(h: Handles, position: nat, frontier: nat, last: nat, out: Outstanding,
                  committed: map<Partition, Commit>, acked: set<Key>, unsettled: set<nat>): World {
    World(1, 1, last, [Session(h, map[TP := Cursor(0, position, frontier, None, false)], unsettled)], Some(0), out,
          committed, acked)
  }

  function Trace(): seq<Event> {
    [Connect, Assigned(0, map[TP := 0]), Deliver(TP, 0), Deliver(TP, 1), Deliver(TP, 2),
     Nack(0, TokenOf(0, 1), true), SeekReturns(true), Ack(0, TokenOf(1, 2)), Ack(0, TokenOf(2, 3)),
     Deliver(TP, 0), Ack(0, TokenOf(0, 4)), CommitReturns(true, Succeeded),
     Deliver(TP, 1), Ack(0, TokenOf(1, 5))]
  }

  /** The worlds of the run, one after each event. */
  function Stage(n: nat): World {
    var all := {At(0), At(1), At(2)};
    var three := map[TP := Commit(3, 0)];
    match n
    case 0 => Start
    case 1 => World(1, 0, 0, [Session(Fresh(1, 0), map[], {})], Some(0), Idle, map[], {})
    case 2 => Before(Fresh(1, 1), 0, 0, 0, Idle, map[], {}, {})
    case 3 => Before(Cohort({0}, 0, 1, map[At(0) := 1], {1}), 1, 1, 1, Idle, map[], {}, {})
    case 4 => Before(Cohort({0, 1}, 0, 2, map[At(0) := 1, At(1) := 2], {1, 2}), 2, 2, 2, Idle, map[], {}, {})
    case 5 => Before(Cohort({0, 1, 2}, 0, 3, map[At(0) := 1, At(1) := 2, At(2) := 3], {1, 2, 3}), 3, 3, 3, Idle, map[],
                     {}, {})
    case 6 => Before(Cohort({0, 1, 2}, 0, 3, map[At(0) := 1, At(1) := 2, At(2) := 3], {1, 2, 3}), 0, 3, 3,
                     Nacking(0, TokenOf(0, 1)), map[], {}, {})
    case 7 => Before(Cohort({0, 1, 2}, 0, 3, map[At(1) := 2, At(2) := 3], {2, 3}), 0, 3, 3, Idle, map[], {}, {})
    case 8 => Before(Cohort({0, 2}, 0, 3, map[At(2) := 3], {3}), 0, 3, 3, Idle, map[], {At(1)}, {})
    case 9 => Before(Cohort({0}, 0, 3, map[], {}), 0, 3, 3, Idle, map[], {At(1), At(2)}, {})
    case 10 => Before(Cohort({0}, 0, 3, map[At(0) := 4], {4}), 1, 3, 4, Idle, map[], {At(1), At(2)}, {})
    case 11 => Before(Cohort({}, 0, 3, map[At(0) := 4], {4}), 1, 3, 4, Acking(0, TokenOf(0, 4), 3, 0), map[], all, {4})
    case 12 => Before(Fresh(1, 1), 1, 3, 4, Idle, three, all, {})
    case 13 => Before(Cohort({1}, 1, 2, map[At(1) := 5], {5}), 2, 3, 5, Idle, three, all, {})
    case _ => Before(Cohort({}, 1, 2, map[At(1) := 5], {5}), 2, 3, 5, Acking(0, TokenOf(1, 5), 2, 0), three, all, {5})
  }

  lemma Same(u: World, v: World)
    requires |u.sessions| == 1 && |v.sessions| == 1
    requires u.generation == v.generation && u.epoch == v.epoch && u.lastAttempt == v.lastAttempt && u.live == v.live
    requires u.outstanding == v.outstanding && u.committed == v.committed && u.acked == v.acked
    requires u.sessions[0].cursors == v.sessions[0].cursors && u.sessions[0].unsettled == v.sessions[0].unsettled
    requires var h, k := u.sessions[0].h, v.sessions[0].h;
             && h.generation == k.generation && h.epoch == k.epoch && h.retired == k.retired && h.legacy == k.legacy
             && h.inFlight.Keys == k.inFlight.Keys && (forall q :: q in h.inFlight ==> h.inFlight[q] == k.inFlight[q])
             && h.watermarks == k.watermarks && h.highWater == k.highWater && h.attempts == k.attempts
             && h.byPartition.Keys == k.byPartition.Keys
                && (forall q :: q in h.byPartition ==> h.byPartition[q] == k.byPartition[q])
    ensures u == v
  {
    assert u.sessions[0].h.inFlight == v.sessions[0].h.inFlight;
    assert u.sessions[0].h.byPartition == v.sessions[0].h.byPartition;
    assert u.sessions[0] == v.sessions[0];
    assert u.sessions == v.sessions;
  }

  lemma SameHandles(h: Handles, k: Handles)
    requires h.generation == k.generation && h.epoch == k.epoch && h.retired == k.retired && h.legacy == k.legacy
    requires h.inFlight.Keys == k.inFlight.Keys && (forall q :: q in h.inFlight ==> h.inFlight[q] == k.inFlight[q])
    requires h.watermarks == k.watermarks && h.highWater == k.highWater && h.attempts == k.attempts
    requires h.byPartition.Keys == k.byPartition.Keys
             && (forall q :: q in h.byPartition ==> h.byPartition[q] == k.byPartition[q])
    ensures h == k
  {
    assert h.inFlight == k.inFlight && h.byPartition == k.byPartition;
  }

  /** Steps of a world of one session, from what they do to its handles. */
  lemma CommitGoes(w: World, token: Token, watermark: nat, h: Handles)
    requires |w.sessions| == 1 && w.outstanding == Acking(0, token, watermark, 0)
    requires IsActive(w.sessions[0].h, token) && w.sessions[0].unsettled == {token.attempt}
    requires AckSettle(w.sessions[0].h, token, watermark) == h
    ensures Step(ThreeRecords(), w, CommitReturns(true, Succeeded))
         == w.(sessions := [Session(h, w.sessions[0].cursors, {})], outstanding := Idle,
               committed := w.committed[token.tp := Commit(watermark, 0)])
  {
    hide AckSettle, IsActive;
    var none: set<nat> := {};
    assert {token.attempt} - {token.attempt} == none;
  }

  lemma AckGoes(w: World, token: Token, h: Handles, plan: AckPlan)
    requires |w.sessions| == 1 && w.outstanding == Idle
    requires AckBegin(w.sessions[0].h, token) == (h, plan) && (plan == NoCommit || plan.SendCommit?)
    ensures Step(ThreeRecords(), w, Ack(0, token))
         == (if plan == NoCommit then w.(sessions := [w.sessions[0].(h := h)], acked := w.acked + {KeyOf(token)})
             else w.(sessions := [w.sessions[0].(h := h, unsettled := w.sessions[0].unsettled + {token.attempt})],
                     acked := w.acked + {KeyOf(token)},
                     outstanding := Acking(0, token, plan.watermark, OriginOf(w.sessions[0], token.tp))))
  {
    hide AckBegin, OriginOf;
  }

  lemma SeekGoes(w: World, token: Token, h: Handles)
    requires |w.sessions| == 1 && w.outstanding == Nacking(0, token) && IsActive(w.sessions[0].h, token)
             && !w.sessions[0].h.retired
    requires Finish(w.sessions[0].h, token) == h
    ensures Step(ThreeRecords(), w, SeekReturns(true)) == w.(sessions := [w.sessions[0].(h := h)], outstanding := Idle)
  {
    hide Finish, IsActive;
  }

  lemma DeliverGoes(w: World, offset: nat, h: Handles)
    requires IsNext(ThreeRecords(), w, TP, offset) && |w.sessions| == 1
    requires PopToken(w.sessions[0].h, TP, offset, w.lastAttempt + 1) == h
    ensures Step(ThreeRecords(), w, Deliver(TP, offset))
         == w.(sessions := [Session(h, Moved(w.sessions[0], TP, offset), w.sessions[0].unsettled)],
               lastAttempt := w.lastAttempt + 1)
  {
    hide PopToken, Moved, NextRecord, ThreeRecords;
  }

  lemma BareGoesOn(w: World, offset: nat, h: Handles)
    requires IsNext(ThreeRecords(), w, TP, offset) && |w.sessions| == 1
    requires PopLegacy(w.sessions[0].h, TP, offset) == h
    ensures Step(ThreeRecords(), w, DeliverBare(TP, offset))
         == w.(sessions := [Session(h, Moved(w.sessions[0], TP, offset), w.sessions[0].unsettled)])
  {
    hide PopLegacy, Moved, NextRecord, ThreeRecords;
  }

  lemma StepConnects()
    ensures Step(ThreeRecords(), Stage(0), Trace()[0]) == Stage(1)
  {
    Same(Step(ThreeRecords(), Stage(0), Trace()[0]), Stage(1));
  }

  lemma StepAssigns()
    ensures Step(ThreeRecords(), Stage(1), Trace()[1]) == Stage(2)
  {
    Same(Step(ThreeRecords(), Stage(1), Trace()[1]), Stage(2));
  }

  lemma StepFirst()
    ensures Step(ThreeRecords(), Stage(2), Trace()[2]) == Stage(3)
  {
    assert IsNext(ThreeRecords(), Stage(2), TP, 0);
    Same(Step(ThreeRecords(), Stage(2), Trace()[2]), Stage(3));
  }

  lemma StepSecond()
    ensures Step(ThreeRecords(), Stage(3), Trace()[3]) == Stage(4)
  {
    assert IsNext(ThreeRecords(), Stage(3), TP, 1);
    Same(Step(ThreeRecords(), Stage(3), Trace()[3]), Stage(4));
  }

  lemma StepThird()
    ensures Step(ThreeRecords(), Stage(4), Trace()[4]) == Stage(5)
  {
    assert IsNext(ThreeRecords(), Stage(4), TP, 2);
    Same(Step(ThreeRecords(), Stage(4), Trace()[4]), Stage(5));
  }

  lemma StepNacks()
    ensures Step(ThreeRecords(), Stage(5), Trace()[5]) == Stage(6)
  {
    Same(Step(ThreeRecords(), Stage(5), Trace()[5]), Stage(6));
  }

  lemma FirstRewound()
    ensures Finish(Cohort({0, 1, 2}, 0, 3, map[At(0) := 1, At(1) := 2, At(2) := 3], {1, 2, 3}), TokenOf(0, 1))
         == Cohort({0, 1, 2}, 0, 3, map[At(1) := 2, At(2) := 3], {2, 3})
  {
    SameHandles(Finish(Cohort({0, 1, 2}, 0, 3, map[At(0) := 1, At(1) := 2, At(2) := 3], {1, 2, 3}), TokenOf(0, 1)),
                Cohort({0, 1, 2}, 0, 3, map[At(1) := 2, At(2) := 3], {2, 3}));
  }

  lemma StepRewinds()
    ensures Step(ThreeRecords(), Stage(6), Trace()[6]) == Stage(7)
  {
    hide Step, Finish;
    FirstRewound();
    SeekGoes(Stage(6), TokenOf(0, 1), Stage(7).sessions[0].h);
  }

  lemma SecondAcked()
    ensures AckBegin(Cohort({0, 1, 2}, 0, 3, map[At(1) := 2, At(2) := 3], {2, 3}), TokenOf(1, 2))
         == (Cohort({0, 2}, 0, 3, map[At(2) := 3], {3}), NoCommit)
  {
    var h := Cohort({0, 1, 2}, 0, 3, map[At(1) := 2, At(2) := 3], {2, 3});
    var pending: set<nat> := {0, 1, 2};
    assert pending - {1} == {0, 2};
    assert Watermark({0, 2}, 0, 3) == 0;
    SameHandles(AckBegin(h, TokenOf(1, 2)).0, Cohort({0, 2}, 0, 3, map[At(2) := 3], {3}));
  }

  lemma StepAcksSecond()
    ensures Step(ThreeRecords(), Stage(7), Trace()[7]) == Stage(8)
  {
    hide Step, AckBegin, Cohort;
    SecondAcked();
    AckGoes(Stage(7), TokenOf(1, 2), Stage(8).sessions[0].h, NoCommit);
  }

  lemma StepAcksThird()
    ensures Step(ThreeRecords(), Stage(8), Trace()[8]) == Stage(9)
  {
    Same(Step(ThreeRecords(), Stage(8), Trace()[8]), Stage(9));
  }

  lemma StepRedelivers()
    ensures Step(ThreeRecords(), Stage(9), Trace()[9]) == Stage(10)
  {
    assert IsNext(ThreeRecords(), Stage(9), TP, 0);
    Same(Step(ThreeRecords(), Stage(9), Trace()[9]), Stage(10));
  }

  lemma StepAcksFirst()
    ensures Step(ThreeRecords(), Stage(10), Trace()[10]) == Stage(11)
  {
    assert Watermark({}, 2, 3) == 3 && Watermark({}, 1, 3) == 3 && Watermark({}, 0, 3) == 3;
    var none: set<nat> := {0};
    assert none - {0} == {};
    Same(Step(ThreeRecords(), Stage(10), Trace()[10]), Stage(11));
  }

  lemma StepCommitsThree()
    ensures Step(ThreeRecords(), Stage(11), Trace()[11]) == Stage(12)
  {
    hide Step;
    var w, n := Stage(11), Stage(12);
    SameHandles(AckSettle(w.sessions[0].h, TokenOf(0, 4), 3), n.sessions[0].h);
    CommitGoes(w, TokenOf(0, 4), 3, n.sessions[0].h);
  }

  lemma StepRedeliversSecond()
    ensures Step(ThreeRecords(), Stage(12), Trace()[12]) == Stage(13)
  {
    assert IsNext(ThreeRecords(), Stage(12), TP, 1);
    Same(Step(ThreeRecords(), Stage(12), Trace()[12]), Stage(13));
  }

  lemma StepCommitsTwo()
    ensures Step(ThreeRecords(), Stage(13), Trace()[13]) == Stage(14)
  {
    assert Watermark({}, 1, 2) == 2;
    var none: set<nat> := {1};
    assert none - {1} == {};
    Same(Step(ThreeRecords(), Stage(13), Trace()[13]), Stage(14));
  }

  lemma Goes(n: nat)
    requires n < |Trace()|
    ensures Step(ThreeRecords(), Stage(n), Trace()[n]) == Stage(n + 1)
  {
    hide Step, Stage, Trace;
    match n
    case 0 => StepConnects();
    case 1 => StepAssigns();
    case 2 => StepFirst();
    case 3 => StepSecond();
    case 4 => StepThird();
    case 5 => StepNacks();
    case 6 => StepRewinds();
    case 7 => StepAcksSecond();
    case 8 => StepAcksThird();
    case 9 => StepRedelivers();
    case 10 => StepAcksFirst();
    case 11 => StepCommitsThree();
    case 12 => StepRedeliversSecond();
    case _ => LastIs(n); StepCommitsTwo();
  }

  lemma LastIs(n: nat)
    requires 13 <= n < |Trace()|
    ensures n == 13
  {
  }

  lemma {:induction false} Reaches(n: nat)
    requires n <= |Trace()|
    ensures Run(ThreeRecords(), Trace()[..n]) == Stage(n)
  {
    if n == 0 {
      assert Trace()[..0] == [];
    } else {
      Reaches(n - 1);
      Goes(n - 1);
      hide Step, Stage;
      assert Trace()[..n][..n - 1] == Trace()[..n - 1];
    }
  }

  /** Commits can go back between cohorts.  Three records are delivered; the first is
      rejected, which rewinds the consumer; the other two are acknowledged, then the
      redelivered first, which commits 3 and drains the cohort.  The second record is
      delivered once more and starts a cohort of its own, and its acknowledgement
      commits 2. */
  lemma CommitsCanGoBack()
    ensures Run(ThreeRecords(), Trace()[..12]).committed == map[TP := Commit(3, 0)]
    ensures Run(ThreeRecords(), Trace()).outstanding == Acking(0, TokenOf(1, 5), 2, 0)
  {
    Reaches(12);
    Reaches(14);
    assert Trace()[..14] == Trace();
    hide Run, Step;
  }

  /** One event earlier in that run, offset 1 is in flight below the committed 3. */
  lemma InFlightBelowCommitted()
    ensures var w := Run(ThreeRecords(), Trace()[..13]);
            && w.committed == map[TP := Commit(3, 0)]
            && |w.sessions| == 1 && w.sessions[0].h.Pending(TP) == {1} && At(1) in w.acked
  {
    Reaches(13);
    hide Run, Step;
  }

  // ----- Within one cohort -----

  /** The same first eight events, then a legacy pop in the middle of the cohort. */
  function BareTrace(): seq<Event> {
    Trace()[..8] + [Deliver(TP, 0), Ack(0, TokenOf(0, 4)), CommitReturns(true, Succeeded), DeliverBare(TP, 1),
                    Ack(0, TokenOf(2, 3)), CommitReturns(true, Succeeded)]
  }

  function BareStage(n: nat): World {
    var two := map[TP := Commit(2, 0)];
    match n
    case 9 => Before(Cohort({0, 2}, 0, 3, map[At(0) := 4, At(2) := 3], {3, 4}), 1, 3, 4, Idle, map[], {At(1)}, {})
    case 10 => Before(Cohort({2}, 0, 3, map[At(0) := 4, At(2) := 3], {3, 4}), 1, 3, 4, Acking(0, TokenOf(0, 4), 2, 0),
                      map[], {At(0), At(1)}, {4})
    case 11 => Before(Cohort({2}, 2, 3, map[At(2) := 3], {3}), 1, 3, 4, Idle, two, {At(0), At(1)}, {})
    case 12 => Before(Cohort({1, 2}, 2, 3, map[At(2) := 3], {3}).(legacy := Some(At(1))), 2, 3, 4, Idle, two,
                      {At(0), At(1)}, {})
    case 13 => Before(Cohort({1}, 2, 3, map[At(2) := 3], {3}).(legacy := Some(At(1))), 2, 3, 4,
                      Acking(0, TokenOf(2, 3), 3, 0), two, {At(0), At(1), At(2)}, {3})
    case 14 => Before(Cohort({1}, 3, 3, map[], {}).(legacy := Some(At(1))), 2, 3, 4, Idle, map[TP := Commit(3, 0)],
                      {At(0), At(1), At(2)}, {})
    case _ => Stage(n)
  }

  lemma FirstPoppedAgain()
    ensures PopToken(Cohort({0, 2}, 0, 3, map[At(2) := 3], {3}), TP, 0, 4)
         == Cohort({0, 2}, 0, 3, map[At(0) := 4, At(2) := 3], {3, 4})
  {
    SameHandles(PopToken(Cohort({0, 2}, 0, 3, map[At(2) := 3], {3}), TP, 0, 4),
                Cohort({0, 2}, 0, 3, map[At(0) := 4, At(2) := 3], {3, 4}));
  }

  lemma NextInLog(w: World, offset: nat)
    requires w.outstanding == Idle && w.live == Some(0) && |w.sessions| == 1 && TP in w.sessions[0].cursors
    requires w.sessions[0].cursors[TP].position == offset < 3 && !w.sessions[0].cursors[TP].lost
    ensures IsNext(ThreeRecords(), w, TP, offset)
  {
  }

  lemma BareRedelivers()
    ensures Step(ThreeRecords(), BareStage(8), Deliver(TP, 0)) == BareStage(9)
  {
    hide Step, PopToken, Cohort, IsNext, ThreeRecords;
    assert BareStage(8) == Stage(8);
    FirstPoppedAgain();
    NextInLog(Stage(8), 0);
    DeliverGoes(Stage(8), 0, BareStage(9).sessions[0].h);
    assert Moved(Stage(8).sessions[0], TP, 0) == BareStage(9).sessions[0].cursors;
  }

  lemma BareAcksFirst()
    ensures Step(ThreeRecords(), BareStage(9), Ack(0, TokenOf(0, 4))) == BareStage(10)
  {
    assert Watermark({2}, 2, 3) == 2 && Watermark({2}, 1, 3) == 2 && Watermark({2}, 0, 3) == 2;
    var pending: set<nat> := {0, 2};
    assert pending - {0} == {2};
    Same(Step(ThreeRecords(), BareStage(9), Ack(0, TokenOf(0, 4))), BareStage(10));
  }

  lemma BareCommitsTwo()
    ensures Step(ThreeRecords(), BareStage(10), CommitReturns(true, Succeeded)) == BareStage(11)
  {
    hide Step;
    var w, n := BareStage(10), BareStage(11);
    SameHandles(AckSettle(w.sessions[0].h, TokenOf(0, 4), 2), n.sessions[0].h);
    CommitGoes(w, TokenOf(0, 4), 2, n.sessions[0].h);
  }

  lemma SecondPoppedBare()
    ensures PopLegacy(Cohort({2}, 2, 3, map[At(2) := 3], {3}), TP, 1)
         == Cohort({1, 2}, 2, 3, map[At(2) := 3], {3}).(legacy := Some(At(1)))
  {
    SameHandles(PopLegacy(Cohort({2}, 2, 3, map[At(2) := 3], {3}), TP, 1),
                Cohort({1, 2}, 2, 3, map[At(2) := 3], {3}).(legacy := Some(At(1))));
  }

  lemma BarePops()
    ensures Step(ThreeRecords(), BareStage(11), DeliverBare(TP, 1)) == BareStage(12)
  {
    hide Step, PopLegacy, Cohort, IsNext, ThreeRecords;
    SecondPoppedBare();
    NextInLog(BareStage(11), 1);
    BareGoesOn(BareStage(11), 1, BareStage(12).sessions[0].h);
    assert Moved(BareStage(11).sessions[0], TP, 1) == BareStage(12).sessions[0].cursors;
  }

  lemma ThirdAcked()
    ensures var h := Cohort({1, 2}, 2, 3, map[At(2) := 3], {3}).(legacy := Some(At(1)));
            AckBegin(h, TokenOf(2, 3))
                == (Cohort({1}, 2, 3, map[At(2) := 3], {3}).(legacy := Some(At(1))), SendCommit(3))
  {
    var h := Cohort({1, 2}, 2, 3, map[At(2) := 3], {3}).(legacy := Some(At(1)));
    assert Watermark({1}, 3, 3) == 3 && Watermark({1}, 2, 3) == 3;
    var pending: set<nat> := {1, 2};
    assert pending - {2} == {1};
    SameHandles(AckBegin(h, TokenOf(2, 3)).0, Cohort({1}, 2, 3, map[At(2) := 3], {3}).(legacy := Some(At(1))));
  }

  lemma BareAcksThird()
    ensures Step(ThreeRecords(), BareStage(12), Ack(0, TokenOf(2, 3))) == BareStage(13)
  {
    hide Step, AckBegin, Cohort;
    ThirdAcked();
    AckGoes(BareStage(12), TokenOf(2, 3), BareStage(13).sessions[0].h, SendCommit(3));
    assert {At(0), At(1)} + {At(2)} == {At(0), At(1), At(2)};
    var none: set<nat> := {};
    assert none + {3} == {3};
  }

  lemma BareCommitsThree()
    ensures Step(ThreeRecords(), BareStage(13), CommitReturns(true, Succeeded)) == BareStage(14)
  {
    hide Step;
    var w, n := BareStage(13), BareStage(14);
    SameHandles(AckSettle(w.sessions[0].h, TokenOf(2, 3), 3), n.sessions[0].h);
    CommitGoes(w, TokenOf(2, 3), 3, n.sessions[0].h);
  }

  lemma BareGoes(n: nat)
    requires n < |BareTrace()|
    ensures Step(ThreeRecords(), BareStage(n), BareTrace()[n]) == BareStage(n + 1)
  {
    if n < 8 {
      Goes(n);
      assert BareTrace()[n] == Trace()[n] && BareStage(n) == Stage(n) && BareStage(n + 1) == Stage(n + 1);
    } else {
      BareTail(n);
      hide Step, Stage, BareStage, BareTrace, Trace;
      match n
      case 8 => BareRedelivers();
      case 9 => BareAcksFirst();
      case 10 => BareCommitsTwo();
      case 11 => BarePops();
      case 12 => BareAcksThird();
      case _ => BareCommitsThree();
    }
  }

  lemma BareTail(n: nat)
    requires 8 <= n < |BareTrace()|
    ensures n <= 13
    ensures BareTrace()[n] == match n
      case 8 => Deliver(TP, 0)
      case 9 => Ack(0, TokenOf(0, 4))
      case 10 => CommitReturns(true, Succeeded)
      case 11 => DeliverBare(TP, 1)
      case 12 => Ack(0, TokenOf(2, 3))
      case _ => CommitReturns(true, Succeeded)
  {
    assert |Trace()[..8]| == 8;
  }

  lemma {:induction false} BareReaches(n: nat)
    requires n <= |BareTrace()|
    ensures Run(ThreeRecords(), BareTrace()[..n]) == BareStage(n)
  {
    if n == 0 {
      assert BareTrace()[..0] == [];
    } else {
      BareReaches(n - 1);
      BareGoes(n - 1);
      hide Step, Stage, BareStage;
      assert BareTrace()[..n][..n - 1] == BareTrace()[..n - 1];
    }
  }

  /** A bare commit can go back within a cohort.  The base stands at 3 with record 1,
      popped the legacy way after a rewind, alone in flight; its bare acknowledgement is
      accepted and commits 2. */
  lemma BareCommitGoesBack()
    ensures var w := Run(ThreeRecords(), BareTrace());
            && w.committed == map[TP := Commit(3, 0)]
            && |w.sessions| == 1 && w.sessions[0].h.inFlight == map[TP := {1}]
               && w.sessions[0].h.watermarks == map[TP := 3]
            && Issued(w, BareAck(0)) == Some((TP, Commit(2, 0)))
  {
    BareReaches(14);
    assert BareTrace()[..14] == BareTrace();
    hide Run, Step;
  }
}
