/** Delivery bookkeeping of one Kafka consumer generation
    (src/scrapy_extension/backends/kafka.py, `_KafkaGenerationHandles` and the
    delivery maps that a generation owns).

    Every function here is the effect of one critical section of the source, the
    code that runs while `_delivery_lock` is held.  What happens between two
    critical sections is the business of module KafkaProtocol. */
module KafkaDelivery {
  import opened Options

  datatype Partition = Partition(topic: string, index: nat)

  /** One record of the log, and the key of `_active_attempts`. */
  datatype Key = Key(tp: Partition, offset: nat)

  /** `_KafkaAckToken`. */
  datatype Token = Token(tp: Partition, offset: nat, generation: nat, epoch: nat, attempt: nat)

  function KeyOf(t: Token): Key { Key(t.tp, t.offset) }

  datatype Handles = Handles(
    generation: nat,
    epoch: nat,
    retired: bool,
    inFlight: map<Partition, set<nat>>,
    watermarks: map<Partition, nat>,
    highWater: map<Partition, nat>,
    attempts: map<Key, nat>,
    byPartition: map<Partition, set<nat>>,
    legacy: Option<Key>)
  {
    function Pending(tp: Partition): set<nat> {
      if tp in inFlight then inFlight[tp] else {}
    }

    predicate HasActive(tp: Partition) {
      tp in byPartition && byPartition[tp] != {}
    }
  }

  function Fresh(generation: nat, epoch: nat): Handles {
    Handles(generation, epoch, false, map[], map[], map[], map[], map[], None)
  }

  /** `_token_is_active_locked` for tokens with a positive attempt number. */
  predicate IsActive(h: Handles, t: Token) {
    && t.generation == h.generation
    && t.epoch == h.epoch
    && KeyOf(t) in h.attempts
    && h.attempts[KeyOf(t)] == t.attempt
  }

  /** `_finish_attempt_locked`. */
  function Finish(h: Handles, t: Token): Handles {
    if KeyOf(t) in h.attempts && h.attempts[KeyOf(t)] == t.attempt then
      h.(attempts := h.attempts - {KeyOf(t)},
         byPartition :=
           if t.tp !in h.byPartition then h.byPartition
           else if h.byPartition[t.tp] - {t.attempt} == {} then h.byPartition - {t.tp}
           else h.byPartition[t.tp := h.byPartition[t.tp] - {t.attempt}])
    else h
  }

  /** Forget a drained partition. */
  function Prune(h: Handles, tp: Partition): Handles {
    h.(inFlight := h.inFlight - {tp}, watermarks := h.watermarks - {tp}, highWater := h.highWater - {tp})
  }

  function PruneIfDrained(h: Handles, tp: Partition): Handles {
    if h.Pending(tp) == {} then Prune(h, tp) else h
  }

  /** Seed the commit base, add the offset, move the pop frontier. */
  function Register(h: Handles, tp: Partition, offset: nat): Handles {
    h.(watermarks := if tp in h.watermarks then h.watermarks else h.watermarks[tp := offset],
       inFlight := h.inFlight[tp := h.Pending(tp) + {offset}],
       highWater := h.highWater[tp := if tp in h.highWater && h.highWater[tp] > offset + 1
                                      then h.highWater[tp] else offset + 1])
  }

  /** The locked part of `pop_with_ack`. */
  function PopToken(h: Handles, tp: Partition, offset: nat, attempt: nat): Handles {
    var key := Key(tp, offset);
    var r := Register(h, tp, offset);
    var kept := if tp !in h.byPartition then {}
                else if key in h.attempts then h.byPartition[tp] - {h.attempts[key]}
                else h.byPartition[tp];
    r.(attempts := h.attempts[key := attempt], byPartition := h.byPartition[tp := kept + {attempt}])
  }

  /** `_register_legacy_record_locked`. */
  function PopLegacy(h: Handles, tp: Partition, offset: nat): Handles {
    Register(h, tp, offset).(legacy := Some(Key(tp, offset)))
  }

  /** `_clear_delivery_state_locked` under a new assignment epoch. */
  function Advance(h: Handles, epoch: nat): Handles {
    Fresh(h.generation, epoch).(retired := h.retired)
  }

  /** The walk of the commit watermark: from `base` over everything that is not in
      flight, never past the pop frontier `high`. */
  function Watermark(pending: set<nat>, base: nat, high: nat): (w: nat)
    ensures base <= w
    ensures base <= high ==> w <= high
    ensures forall o :: base <= o < w ==> o !in pending
    ensures w < high ==> w in pending
    decreases high - base
  {
    if base < high && base !in pending then Watermark(pending, base + 1, high) else base
  }

  /** What the first critical section of an acknowledgement decided. */
  datatype AckPlan =
    | Stale
    | AlreadyRemoved
    | NoCommit
    | SendCommit(watermark: nat)

  /** The locked prologue of `_ack_token_locked_unlocked`, with the no-commit epilogue
      folded in because no driver call separates the two. */
  function AckBegin(h: Handles, t: Token): (Handles, AckPlan) {
    if !IsActive(h, t) then (h, Stale)
    else if t.offset !in h.Pending(t.tp) then
      (PruneIfDrained(Finish(h, t), t.tp), AlreadyRemoved)
    else
      var rest := h.Pending(t.tp) - {t.offset};
      var base := if t.tp in h.watermarks then h.watermarks[t.tp] else t.offset;
      var high := if t.tp in h.highWater then h.highWater[t.tp] else base;
      var removed := h.(inFlight := h.inFlight[t.tp := rest], watermarks := h.watermarks[t.tp := base]);
      var w := Watermark(rest, base, high);
      if w <= base then (PruneIfDrained(Finish(removed, t), t.tp), NoCommit)
      else (removed, SendCommit(w))
  }

  /** After a commit that failed with a Kafka error. */
  function AckRestore(h: Handles, t: Token): Handles {
    if IsActive(h, t) && t.tp in h.inFlight then h.(inFlight := h.inFlight[t.tp := h.inFlight[t.tp] + {t.offset}])
    else h
  }

  /** After a commit that returned. */
  function AckSettle(h: Handles, t: Token, watermark: nat): Handles {
    if IsActive(h, t) then
      PruneIfDrained(Finish(h.(watermarks := h.watermarks[t.tp := watermark]), t), t.tp)
    else h
  }

  /** `ack(token=None)`: is the commit of the legacy record refused? */
  predicate BareAckRefused(h: Handles, record: Key) {
    || h.HasActive(record.tp)
    || (record.tp in h.inFlight && h.inFlight[record.tp] != {record.offset})
  }

  /** Bookkeeping after the legacy commit returned. */
  function BareAckSettle(h: Handles, record: Key, tracked: bool): Handles {
    var h1 := if h.legacy == Some(record) then h.(legacy := None) else h;
    if tracked && record.tp in h1.inFlight then
      PruneIfDrained(h1.(inFlight := h1.inFlight[record.tp := h1.inFlight[record.tp] - {record.offset}]), record.tp)
    else h1
  }

  /** Bookkeeping after the legacy nack returned. */
  function BareNackSettle(h: Handles, record: Key): Handles {
    var h1 := h.(legacy := None);
    if record.tp in h1.inFlight && !h1.HasActive(record.tp) then
      PruneIfDrained(h1.(inFlight := h1.inFlight[record.tp := h1.inFlight[record.tp] - {record.offset}]), record.tp)
    else h1
  }

  predicate SameIdentity(h: Handles, k: Handles) {
    h.generation == k.generation && h.epoch == k.epoch && h.retired == k.retired
  }

  /** Settlements never change whose deliveries these are. */
  lemma AckSettleSameIdentity(h: Handles, t: Token, wm: nat)
    ensures SameIdentity(h, AckSettle(h, t, wm))
  {
    FinishSameIdentity(h.(watermarks := h.watermarks[t.tp := wm]), t);
    hide Finish, IsActive;
  }

  lemma FinishSameIdentity(h: Handles, t: Token)
    ensures SameIdentity(h, Finish(h, t))
  {
  }

  lemma StaleIsInert(h: Handles, t: Token)
    ensures !IsActive(h, t) <==> AckBegin(h, t).1.Stale?
    ensures !IsActive(h, t) ==> AckBegin(h, t).0 == h
  {
  }

  lemma AckBeginSameIdentity(h: Handles, t: Token)
    ensures SameIdentity(h, AckBegin(h, t).0)
  {
    FinishSameIdentity(h, t);
    var base := if t.tp in h.watermarks then h.watermarks[t.tp] else t.offset;
    var removed := h.(inFlight := h.inFlight[t.tp := h.Pending(t.tp) - {t.offset}],
                      watermarks := h.watermarks[t.tp := base]);
    FinishSameIdentity(removed, t);
    hide Finish, IsActive, Watermark;
  }

  lemma PopSameIdentity(h: Handles, tp: Partition, offset: nat, attempt: nat)
    ensures SameIdentity(h, PopToken(h, tp, offset, attempt))
    ensures SameIdentity(h, PopLegacy(h, tp, offset))
  {
  }

  lemma BareSettlesSameIdentity(h: Handles, record: Key, tracked: bool)
    ensures SameIdentity(h, BareAckSettle(h, record, tracked))
    ensures SameIdentity(h, BareNackSettle(h, record))
  {
  }

  // ----- The two tables of attempts -----

  /** The attempts that `_active_attempts` holds for one partition. */
  function Grouped(attempts: map<Key, nat>, tp: Partition): set<nat> {
    set k | k in attempts && k.tp == tp :: attempts[k]
  }

  predicate Unique(attempts: map<Key, nat>) {
    forall k, l :: k in attempts && l in attempts && attempts[k] == attempts[l] ==> k == l
  }

  /** `_active_attempts_by_partition` is the grouping of `_active_attempts`, it holds no
      empty group, and an attempt number identifies its delivery. */
  predicate IndexAgrees(h: Handles) {
    && (forall tp :: tp in h.byPartition ==> h.byPartition[tp] == Grouped(h.attempts, tp) && h.byPartition[tp] != {})
    && (forall k :: k in h.attempts ==> k.tp in h.byPartition)
    && Unique(h.attempts)
  }

  lemma ActiveMeansAttempt(h: Handles, tp: Partition)
    requires IndexAgrees(h)
    ensures h.HasActive(tp) <==> exists k :: k in h.attempts && k.tp == tp
  {
    if h.HasActive(tp) {
      var a :| a in h.byPartition[tp];
      assert a in Grouped(h.attempts, tp);
    }
  }

  lemma GroupedWithout(attempts: map<Key, nat>, key: Key, tp: Partition)
    requires Unique(attempts) && key in attempts
    ensures Unique(attempts - {key})
    ensures Grouped(attempts - {key}, tp) ==
            if key.tp == tp then Grouped(attempts, tp) - {attempts[key]} else Grouped(attempts, tp)
  {
    var less := attempts - {key};
    forall a | a in Grouped(attempts, tp) && (key.tp == tp ==> a != attempts[key])
      ensures a in Grouped(less, tp)
    {
      var k :| k in attempts && k.tp == tp && attempts[k] == a;
      assert k in less;
    }
  }

  lemma GroupedWith(attempts: map<Key, nat>, key: Key, a: nat, tp: Partition)
    requires Unique(attempts) && key !in attempts && a !in attempts.Values
    ensures Unique(attempts[key := a])
    ensures Grouped(attempts[key := a], tp) ==
            if key.tp == tp then Grouped(attempts, tp) + {a} else Grouped(attempts, tp)
  {
    var more := attempts[key := a];
    forall b | b in Grouped(attempts, tp) || (key.tp == tp && b == a)
      ensures b in Grouped(more, tp)
    {
      if b in Grouped(attempts, tp) {
        var k :| k in attempts && k.tp == tp && attempts[k] == b;
        assert k in more && more[k] == b;
      } else {
        assert key in more && more[key] == b;
      }
    }
  }

  lemma FinishKeepsIndex(h: Handles, t: Token)
    requires IndexAgrees(h)
    ensures IndexAgrees(Finish(h, t))
  {
    var f := Finish(h, t);
    if KeyOf(t) in h.attempts && h.attempts[KeyOf(t)] == t.attempt {
      GroupedWithout(h.attempts, KeyOf(t), t.tp);
      forall tp | tp in f.byPartition && tp != t.tp
        ensures f.byPartition[tp] == Grouped(f.attempts, tp)
      {
        GroupedWithout(h.attempts, KeyOf(t), tp);
      }
      forall k | k in f.attempts
        ensures k.tp in f.byPartition
      {
        assert k in h.attempts;
        if k.tp == t.tp {
          assert f.attempts[k] in Grouped(f.attempts, t.tp);
        }
      }
    }
  }

  /** A redelivery overwrites the attempt of its key in both tables. */
  lemma GroupedOverwrite(attempts: map<Key, nat>, key: Key, a: nat, tp: Partition)
    requires Unique(attempts) && a !in attempts.Values
    ensures Unique(attempts[key := a])
    ensures Grouped(attempts[key := a], tp) ==
            if key.tp != tp then Grouped(attempts, tp)
            else if key in attempts then Grouped(attempts, tp) - {attempts[key]} + {a}
            else Grouped(attempts, tp) + {a}
  {
    if key in attempts {
      var without := attempts - {key};
      GroupedWithout(attempts, key, tp);
      GroupedWith(without, key, a, tp);
      assert without[key := a] == attempts[key := a];
    } else {
      GroupedWith(attempts, key, a, tp);
    }
  }

  lemma PopKeepsIndex(h: Handles, tp: Partition, offset: nat, attempt: nat)
    requires IndexAgrees(h)
    requires forall k :: k in h.attempts ==> h.attempts[k] < attempt
    ensures IndexAgrees(PopToken(h, tp, offset, attempt))
  {
    var p := PopToken(h, tp, offset, attempt);
    var key := Key(tp, offset);
    assert attempt !in h.attempts.Values;
    GroupedOverwrite(h.attempts, key, attempt, tp);
    if tp !in h.byPartition {
      assert Grouped(h.attempts, tp) == {};
    }
    assert p.byPartition[tp] == Grouped(p.attempts, tp);
    forall q | q in p.byPartition && q != tp
      ensures p.byPartition[q] == Grouped(p.attempts, q)
    {
      GroupedOverwrite(h.attempts, key, attempt, q);
    }
  }

  /** The walk stops at the least in-flight offset from the base on, or at the pop
      frontier when nothing from the base on is in flight. */
  lemma WatermarkIsLeast(pending: set<nat>, base: nat, high: nat)
    requires base <= high
    requires forall o :: o in pending ==> o < high
    ensures var w := Watermark(pending, base, high);
            if exists o :: o in pending && base <= o
            then w in pending && base <= w && forall o :: o in pending && base <= o ==> w <= o
            else w == high
  {
    var w := Watermark(pending, base, high);
    if w == high {
    } else {
      assert w in pending && base <= w;
    }
  }
}
