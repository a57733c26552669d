/** The objects of the Kafka backend whose fields the source updates in place
    (src/scrapy_extension/backends/kafka.py).  Each method is one critical section, or
    a whole settlement with the driver call in the middle, and is tied to the step
    function of KafkaDelivery that KafkaProtocol runs. */
module KafkaBackend {
  import opened Options
  import D = KafkaDelivery
  import P = KafkaProtocol

  /** `_KafkaGenerationHandles`: the delivery maps that one consumer generation owns. */
  class Generation {
    var generation: nat
    var epoch: nat
    var retired: bool
    var inFlight: map<D.Partition, set<nat>>
    var watermarks: map<D.Partition, nat>
    var highWater: map<D.Partition, nat>
    var attempts: map<D.Key, nat>
    var byPartition: map<D.Partition, set<nat>>
    var legacy: Option<D.Key>

    ghost function View(): D.Handles
      reads this
    {
      D.Handles(generation, epoch, retired, inFlight, watermarks, highWater, attempts, byPartition, legacy)
    }

    constructor (generation: nat, epoch: nat)
      ensures View() == D.Fresh(generation, epoch)
    {
      this.generation, this.epoch, this.retired := generation, epoch, false;
      inFlight, watermarks, highWater := map[], map[], map[];
      attempts, byPartition, legacy := map[], map[], None;
    }

    method TokenIsActive(t: D.Token) returns (active: bool)
      ensures active <==> D.IsActive(View(), t)
    {
      if t.generation != generation || t.epoch != epoch {
        return false;
      }
      var key := D.KeyOf(t);
      return key in attempts && attempts[key] == t.attempt;
    }

    method FinishAttempt(t: D.Token)
      modifies this`attempts, this`byPartition
      ensures View() == D.Finish(old(View()), t)
    {
      var key := D.KeyOf(t);
      if key in attempts && attempts[key] == t.attempt {
        attempts := attempts - {key};
        if t.tp in byPartition {
          var group := byPartition[t.tp] - {t.attempt};
          byPartition := byPartition[t.tp := group];
          if group == {} {
            byPartition := byPartition - {t.tp};
            assert byPartition == old(byPartition) - {t.tp};
          }
        }
      }
    }

    method PruneIfDrained(tp: D.Partition)
      modifies this`inFlight, this`watermarks, this`highWater
      ensures View() == D.PruneIfDrained(old(View()), tp)
    {
      if tp !in inFlight || inFlight[tp] == {} {
        inFlight := inFlight - {tp};
        watermarks := watermarks - {tp};
        highWater := highWater - {tp};
      }
    }

    method Register(tp: D.Partition, offset: nat)
      modifies this`inFlight, this`watermarks, this`highWater
      ensures View() == D.Register(old(View()), tp, offset)
    {
      if tp !in watermarks {
        watermarks := watermarks[tp := offset];
      }
      var pending := if tp in inFlight then inFlight[tp] else {};
      inFlight := inFlight[tp := pending + {offset}];
      var high := if tp in highWater then highWater[tp] else 0;
      highWater := highWater[tp := if offset + 1 > high then offset + 1 else high];
    }

    /** The locked part of `pop_with_ack`. */
    method RecordPop(tp: D.Partition, offset: nat, attempt: nat)
      modifies this
      ensures View() == D.PopToken(old(View()), tp, offset, attempt)
    {
      Register(tp, offset);
      var key := D.Key(tp, offset);
      var group := if tp in byPartition then byPartition[tp] else {};
      if key in attempts {
        group := group - {attempts[key]};
      }
      attempts := attempts[key := attempt];
      byPartition := byPartition[tp := group + {attempt}];
      assert tp !in old(byPartition) ==> group == {};
    }

    /** `_register_legacy_record_locked`. */
    method RecordLegacyPop(tp: D.Partition, offset: nat)
      modifies this
      ensures View() == D.PopLegacy(old(View()), tp, offset)
    {
      legacy := Some(D.Key(tp, offset));
      Register(tp, offset);
    }

    /** The loop that walks the commit watermark: it ends at the least offset from the
        base on that is in flight, or at the pop frontier. */
    static method WalkWatermark(pending: set<nat>, base: nat, high: nat) returns (w: nat)
      ensures w == D.Watermark(pending, base, high)
      ensures base <= high ==>
                base <= w <= high
                && (forall o :: base <= o < w ==> o !in pending)
                && (w < high ==> w in pending)
    {
      w := base;
      while w < high && w !in pending
        invariant base <= w && (base <= high ==> w <= high)
        invariant D.Watermark(pending, base, high) == D.Watermark(pending, w, high)
      {
        w := w + 1;
      }
    }

    /** The critical section that opens `_ack_token_locked_unlocked`. */
    method AckBegin(t: D.Token) returns (plan: D.AckPlan)
      modifies this
      ensures (View(), plan) == D.AckBegin(old(View()), t)
    {
      var active := TokenIsActive(t);
      if !active { return D.Stale; }
      if t.tp !in inFlight || t.offset !in inFlight[t.tp] {
        FinishAttempt(t);
        PruneIfDrained(t.tp);
        return D.AlreadyRemoved;
      }
      var rest := inFlight[t.tp] - {t.offset};
      inFlight := inFlight[t.tp := rest];
      if t.tp !in watermarks {
        watermarks := watermarks[t.tp := t.offset];
      }
      var base := watermarks[t.tp];
      var high := if t.tp in highWater then highWater[t.tp] else base;
      var w := WalkWatermark(rest, base, high);
      assert watermarks == old(watermarks)[t.tp := base];
      if w <= base {
        FinishAttempt(t);
        PruneIfDrained(t.tp);
        return D.NoCommit;
      }
      return D.SendCommit(w);
    }

    /** The critical section after a commit that raised a Kafka error. */
    method AckRestore(t: D.Token)
      modifies this`inFlight
      ensures View() == D.AckRestore(old(View()), t)
    {
      var active := TokenIsActive(t);
      if active && t.tp in inFlight {
        inFlight := inFlight[t.tp := inFlight[t.tp] + {t.offset}];
      }
    }

    /** The critical section after a commit that returned. */
    method AckSettle(t: D.Token, watermark: nat)
      modifies this
      ensures View() == D.AckSettle(old(View()), t, watermark)
    {
      var active := TokenIsActive(t);
      if active {
        watermarks := watermarks[t.tp := watermark];
        FinishAttempt(t);
        PruneIfDrained(t.tp);
      }
    }

    /** The critical section after the legacy commit returned. */
    method BareAckSettle(record: D.Key, tracked: bool)
      modifies this
      ensures View() == D.BareAckSettle(old(View()), record, tracked)
    {
      if legacy == Some(record) { legacy := None; }
      if tracked && record.tp in inFlight {
        inFlight := inFlight[record.tp := inFlight[record.tp] - {record.offset}];
        PruneIfDrained(record.tp);
      }
    }

    /** The critical section after the seek of a legacy nack returned. */
    method BareNackSettle(record: D.Key)
      modifies this
      ensures View() == D.BareNackSettle(old(View()), record)
    {
      legacy := None;
      var active := record.tp in byPartition && byPartition[record.tp] != {};
      if record.tp in inFlight && !active {
        inFlight := inFlight[record.tp := inFlight[record.tp] - {record.offset}];
        PruneIfDrained(record.tp);
      }
    }

    /** `_clear_delivery_state_locked` under a new epoch. */
    method Advance(newEpoch: nat)
      modifies this
      ensures View() == D.Advance(old(View()), newEpoch)
    {
      legacy := None;
      inFlight, watermarks, highWater := map[], map[], map[];
      attempts, byPartition := map[], map[];
      epoch := newEpoch;
    }
  }

  /** What a driver callback does while the commit is out. */
  datatype Landing = Nothing | Rebalanced | Disconnected

  datatype AckResult = Settled | Ignored | Refused | DriverFailed | ConnectionChanged | Signalled

  /** The counters and the accepting generation of `KafkaBackend`.  While a generation
      accepts, the mirror maps of the source are that generation's own maps. */
  class Backend {
    var consumerGeneration: nat
    var assignmentEpoch: nat
    var lastAttempt: nat
    var current: Generation?

    ghost predicate Valid()
      reads this, current
    {
      current != null ==>
        && !current.retired
        && current.generation == consumerGeneration
        && current.epoch == assignmentEpoch
    }

    constructor ()
      ensures Valid() && current == null
      ensures consumerGeneration == assignmentEpoch == lastAttempt == 0
    {
      consumerGeneration, assignmentEpoch, lastAttempt, current := 0, 0, 0, null;
    }

    /** Connect and create the consumer. */
    method Connect()
      requires Valid()
      modifies this
      ensures Valid() && current != null
      ensures old(current) != null ==> current == old(current) && consumerGeneration == old(consumerGeneration)
      ensures old(current) == null ==>
                && consumerGeneration == old(consumerGeneration) + 1
                && fresh(current) && current.View() == D.Fresh(consumerGeneration, assignmentEpoch)
      ensures assignmentEpoch == old(assignmentEpoch) && lastAttempt == old(lastAttempt)
    {
      if current == null {
        consumerGeneration := consumerGeneration + 1;
        current := new Generation(consumerGeneration, assignmentEpoch);
      }
    }

    /** `pop_with_ack` once the driver has returned a record. */
    method PopWithAck(tp: D.Partition, offset: nat) returns (t: D.Token)
      requires Valid() && current != null
      modifies this`lastAttempt, current
      ensures Valid() && lastAttempt == old(lastAttempt) + 1
      ensures t == D.Token(tp, offset, consumerGeneration, assignmentEpoch, lastAttempt)
      ensures current.View() == D.PopToken(old(current.View()), tp, offset, lastAttempt)
      ensures D.IsActive(current.View(), t)
    {
      lastAttempt := lastAttempt + 1;
      t := D.Token(tp, offset, consumerGeneration, assignmentEpoch, lastAttempt);
      current.RecordPop(tp, offset, lastAttempt);
      assert current.View().generation == old(current.View()).generation by {
        D.PopSameIdentity(old(current.View()), tp, offset, lastAttempt);
      }
    }

    /** `_on_assignment_changed`: only the listener of the accepting generation counts. */
    method OnAssignmentChanged(g: Generation)
      requires Valid()
      modifies this`assignmentEpoch, g
      ensures Valid() && consumerGeneration == old(consumerGeneration)
      ensures if current == g
              then assignmentEpoch == old(assignmentEpoch) + 1 && g.View() == D.Advance(old(g.View()), assignmentEpoch)
              else assignmentEpoch == old(assignmentEpoch) && g.View() == old(g.View())
    {
      if current != g { return; }
      assignmentEpoch := assignmentEpoch + 1;
      g.Advance(assignmentEpoch);
    }

    /** The state part of `disconnect`: the retired generation keeps its maps and its
        epoch, and the next generation starts with maps of its own. */
    method Disconnect()
      requires Valid()
      modifies this, current
      ensures Valid() && current == null
      ensures consumerGeneration == old(consumerGeneration) + 1 && assignmentEpoch == old(assignmentEpoch) + 1
      ensures lastAttempt == old(lastAttempt)
      ensures old(current) != null ==> old(current).View() == old(current.View()).(retired := true)
    {
      consumerGeneration := consumerGeneration + 1;
      assignmentEpoch := assignmentEpoch + 1;
      if current != null {
        current.retired := true;
      }
      current := null;
    }

    method Land(g: Generation, landing: Landing)
      requires Valid()
      modifies this, g, current
      ensures Valid()
      ensures g.View() == Landed(old(g.View()), old(assignmentEpoch), old(current) == g, landing)
    {
      match landing
      case Nothing =>
      case Rebalanced => OnAssignmentChanged(g);
      case Disconnected => Disconnect();
    }

    /** What a callback does to a generation, live or not. */
    static ghost function Landed(h: D.Handles, epoch: nat, live: bool, landing: Landing): D.Handles {
      if !live then h else
      match landing
      case Nothing => h
      case Rebalanced => D.Advance(h, epoch + 1)
      case Disconnected => h.(retired := true)
    }

    /** A whole token acknowledgement on the generation `g` that the caller leased: the
        opening critical section, the commit during which a callback may land, and the
        section that settles or restores. */
    method AckToken(g: Generation, t: D.Token, landing: Landing, outcome: P.Outcome)
        returns (committed: Option<nat>, result: AckResult)
      requires Valid()
      modifies this, g, current
      ensures Valid()
      ensures var (h, plan) := D.AckBegin(old(g.View()), t);
              match plan
              case SendCommit(wm) =>
                var mid := Landed(h, old(assignmentEpoch), old(current) == g, landing);
                && committed == Some(wm)
                && (match outcome
                    case Succeeded =>
                      && g.View() == D.AckSettle(mid, t, wm)
                      && result == (if mid.retired || mid.epoch != t.epoch then ConnectionChanged else Settled)
                    case KafkaError => g.View() == D.AckRestore(mid, t) && result == DriverFailed
                    case Interrupted => g.View() == mid && result == Signalled)
              case Stale => committed == None && result == Ignored && g.View() == old(g.View())
              case _ => committed == None && result == Settled && g.View() == h
    {
      hide D.AckBegin, D.AckSettle, D.AckRestore;
      D.AckBeginSameIdentity(g.View(), t);
      D.StaleIsInert(g.View(), t);
      var plan := g.AckBegin(t);
      match plan
      case Stale => return None, Ignored;
      case AlreadyRemoved => return None, Settled;
      case NoCommit => return None, Settled;
      case SendCommit(wm) =>
        Land(g, landing);
        match outcome {
          case Interrupted =>
            return Some(wm), Signalled;
          case KafkaError =>
            RestoreKeepsValid(g.View(), t);
            g.AckRestore(t);
            return Some(wm), DriverFailed;
          case Succeeded =>
            D.AckSettleSameIdentity(g.View(), t, wm);
            g.AckSettle(t, wm);
            return Some(wm), if g.retired || g.epoch != t.epoch then ConnectionChanged else Settled;
        }
    }

    /** A whole bare acknowledgement of the legacy record of `g`. */
    method AckLegacy(g: Generation, landing: Landing, outcome: P.Outcome)
        returns (committed: Option<nat>, result: AckResult)
      requires Valid()
      modifies this, g, current
      ensures Valid()
      ensures var h := old(g.View());
              if h.legacy.None? then committed == None && result == Ignored && g.View() == h
              else if D.BareAckRefused(h, h.legacy.value) then committed == None && result == Refused && g.View() == h
              else
                var r := h.legacy.value;
                var mid := Landed(h, old(assignmentEpoch), old(current) == g, landing);
                && committed == Some(r.offset + 1)
                && (match outcome
                    case Succeeded =>
                      && g.View() == (if mid.epoch == h.epoch then D.BareAckSettle(mid, r, r.tp in h.inFlight) else mid)
                      && result == (if mid.retired || mid.epoch != h.epoch then ConnectionChanged else Settled)
                    case KafkaError => g.View() == mid && result == DriverFailed
                    case Interrupted => g.View() == mid && result == Signalled)
    {
      if g.legacy == None { return None, Ignored; }
      var r := g.legacy.value;
      if r.tp in g.byPartition && g.byPartition[r.tp] != {} { return None, Refused; }
      if r.tp in g.inFlight && g.inFlight[r.tp] != {r.offset} { return None, Refused; }
      var at := g.epoch;
      var tracked := r.tp in g.inFlight;
      Land(g, landing);
      match outcome {
        case Interrupted => return Some(r.offset + 1), Signalled;
        case KafkaError => return Some(r.offset + 1), DriverFailed;
        case Succeeded =>
          var same := g.epoch == at;
          if same {
            D.BareSettlesSameIdentity(g.View(), r, tracked);
            g.BareAckSettle(r, tracked);
          }
          return Some(r.offset + 1), if g.retired || !same then ConnectionChanged else Settled;
      }
    }

    /** A whole token nack on the generation `g`: check, seek when the partition is
        assigned, check again, finish.  The offset stays in flight. */
    method NackToken(g: Generation, t: D.Token, owned: bool, seekOk: bool, landing: Landing)
        returns (sought: Option<nat>, result: AckResult)
      requires Valid()
      modifies this, g, current
      ensures Valid()
      ensures var h := old(g.View());
              if !D.IsActive(h, t) then sought == None && result == Ignored && g.View() == h
              else if h.retired then sought == None && result == ConnectionChanged && g.View() == h
              else if owned && !seekOk then sought == None && result == DriverFailed && g.View() == h
              else
                var mid := Landed(h, old(assignmentEpoch), old(current) == g, landing);
                && sought == (if owned then Some(t.offset) else None)
                && (if mid.retired then result == ConnectionChanged && g.View() == mid
                    else if !D.IsActive(mid, t) then result == Ignored && g.View() == mid
                    else result == Settled && g.View() == D.Finish(mid, t))
    {
      sought := None;
      var active := g.TokenIsActive(t);
      if !active { return None, Ignored; }
      if g.retired { return None, ConnectionChanged; }
      if owned {
        if !seekOk { return None, DriverFailed; }
        sought := Some(t.offset);
      }
      Land(g, landing);
      if g.retired { return sought, ConnectionChanged; }
      active := g.TokenIsActive(t);
      if !active { return sought, Ignored; }
      D.FinishSameIdentity(g.View(), t);
      g.FinishAttempt(t);
      return sought, Settled;
    }

    static lemma RestoreKeepsValid(h: D.Handles, t: D.Token)
      ensures D.SameIdentity(h, D.AckRestore(h, t))
    {
    }
  }
}
