/** The delivery protocol of the Kafka backend as a state machine over atomic steps
    (src/scrapy_extension/backends/kafka.py).

    A step is one critical section of `_delivery_lock`, or one driver call, taken in
    any order.  `_consumer_io_lock` allows one settlement at a time, so at most one
    commit or seek is outstanding; an assignment change or a disconnect may land while
    it is.  The broker log may have gaps. */
module KafkaProtocol {
  import opened Options
  import opened KafkaDelivery

  /** Every record the broker will ever hold, gaps included. */
  type Log = iset<Key>

  /** What the consumer of one session knows of one assigned partition.
      `origin` is where its consumption started, `position` the next fetch offset, and
      `frontier` the end of the delivered range; unlike `_high_water` it survives
      pruning.  `hole` is an offset that a bare nack dropped and that the next fetch
      delivers again. */
  datatype Cursor = Cursor(origin: nat, position: nat, frontier: nat, hole: Option<nat>, lost: bool)

  /** One consumer generation.  `unsettled` holds the attempts whose acknowledgement
      has taken the offset out of flight but has not been settled or restored. */
  datatype Session = Session(h: Handles, cursors: map<Partition, Cursor>, unsettled: set<nat>)

  /** A committed offset, and the origin of the consumption that committed it. */
  datatype Commit = Commit(offset: nat, origin: nat)

  /** The settlement whose driver call has not returned. */
  datatype Outstanding =
    | Idle
    | Acking(session: nat, token: Token, watermark: nat, origin: nat)
    | BareAcking(session: nat, record: Key, epoch: nat, origin: nat, tracked: bool)
    | Nacking(session: nat, token: Token)
    | BareNacking(session: nat, record: Key, epoch: nat, owned: bool)

  /** `acked` is the set of records that some acknowledgement, by a token active at
      that moment or by the legacy slot, has reported as processed. */
  datatype World = World(
    generation: nat,
    epoch: nat,
    lastAttempt: nat,
    sessions: seq<Session>,
    live: Option<nat>,
    outstanding: Outstanding,
    committed: map<Partition, Commit>,
    acked: set<Key>)

  const Start := World(0, 0, 0, [], None, Idle, map[], {})

  /** How a commit came back.  A Kafka error or an interrupt does not say whether the
      broker applied it. */
  datatype Outcome = Succeeded | KafkaError | Interrupted

  datatype Event =
    | Connect
    | Assigned(session: nat, resets: map<Partition, nat>)
    | Deliver(tp: Partition, offset: nat)
    | DeliverBare(tp: Partition, offset: nat)
    | Ack(session: nat, token: Token)
    | BareAck(session: nat)
    | CommitReturns(applied: bool, outcome: Outcome)
    | Nack(session: nat, token: Token, owned: bool)
    | BareNack(session: nat, owned: bool)
    | SeekReturns(ok: bool)
    | Disconnect

  // ----- Steps of one session -----

  /** An assigned partition restarts at the committed offset, or at the reset offset
      when the group has no commit; then consumption starts afresh there. */
  function Restart(committed: map<Partition, Commit>, resets: map<Partition, nat>): map<Partition, Cursor> {
    map tp | tp in resets ::
      if tp in committed then Cursor(committed[tp].origin, committed[tp].offset, committed[tp].offset, None, false)
      else Cursor(resets[tp], resets[tp], resets[tp], None, false)
  }

  /** The cursor after a fetch returned `offset`. */
  function Advanced(c: Cursor, offset: nat): Cursor {
    Cursor(c.origin, offset + 1, if c.frontier > offset + 1 then c.frontier else offset + 1, None, false)
  }

  /** A fetch from the cursor returns the first record of the log at or after the
      position; a lost partition is not fetched. */
  ghost predicate NextRecord(log: Log, tp: Partition, c: Cursor, offset: nat) {
    && !c.lost
    && Key(tp, offset) in log
    && c.position <= offset
    && forall o: nat :: c.position <= o && Key(tp, o) in log ==> offset <= o
  }

  function Moved(s: Session, tp: Partition, offset: nat): map<Partition, Cursor>
    requires tp in s.cursors
  {
    s.cursors[tp := Advanced(s.cursors[tp], offset)]
  }

  function Delivered(s: Session, tp: Partition, offset: nat, attempt: nat): Session
    requires tp in s.cursors
  {
    Session(PopToken(s.h, tp, offset, attempt), Moved(s, tp, offset), s.unsettled)
  }

  function DeliveredBare(s: Session, tp: Partition, offset: nat): Session
    requires tp in s.cursors
  {
    Session(PopLegacy(s.h, tp, offset), Moved(s, tp, offset), s.unsettled)
  }

  function Sought(s: Session, tp: Partition, offset: nat): Session {
    if tp in s.cursors then s.(cursors := s.cursors[tp := s.cursors[tp].(position := offset)]) else s
  }

  function CommitReturned(s: Session, t: Token, watermark: nat, outcome: Outcome): Session {
    var active := IsActive(s.h, t);
    match outcome
    case Succeeded =>
      Session(AckSettle(s.h, t, watermark), s.cursors, if active then s.unsettled - {t.attempt} else s.unsettled)
    case KafkaError => Session(AckRestore(s.h, t), s.cursors, if active then s.unsettled - {t.attempt} else s.unsettled)
    case Interrupted => s
  }

  /** A record dropped after a seek leaves a hole that the next fetch fills; one dropped
      because its partition is no longer assigned leaves the partition lost. */
  function BareNackReturned(s: Session, record: Key, owned: bool): Session {
    var dropped := record.tp in s.h.inFlight && !s.h.HasActive(record.tp);
    Session(BareNackSettle(s.h, record),
            if !dropped || record.tp !in s.cursors then s.cursors
            else if owned then s.cursors[record.tp := s.cursors[record.tp].(hole := Some(record.offset))]
            else s.cursors[record.tp := s.cursors[record.tp].(lost := true)],
            s.unsettled)
  }

  // ----- Steps of the world -----

  function Put(w: World, g: nat, s: Session): World
    requires g < |w.sessions|
  {
    w.(sessions := w.sessions[g := s])
  }

  ghost predicate IsNext(log: Log, w: World, tp: Partition, offset: nat) {
    && w.outstanding == Idle
    && w.live.Some? && w.live.value < |w.sessions|
    && tp in w.sessions[w.live.value].cursors
    && NextRecord(log, tp, w.sessions[w.live.value].cursors[tp], offset)
  }

  function OriginOf(s: Session, tp: Partition): nat {
    if tp in s.cursors then s.cursors[tp].origin else 0
  }

  function AckStep(w: World, g: nat, t: Token): World
    requires g < |w.sessions|
  {
    var s := w.sessions[g];
    var (h, plan) := AckBegin(s.h, t);
    match plan
    case Stale => w
    case AlreadyRemoved => Put(w, g, s.(h := h))
    case NoCommit => Put(w, g, s.(h := h)).(acked := w.acked + {KeyOf(t)})
    case SendCommit(wm) =>
      Put(w, g, s.(h := h, unsettled := s.unsettled + {t.attempt}))
      .(acked := w.acked + {KeyOf(t)}, outstanding := Acking(g, t, wm, OriginOf(s, t.tp)))
  }

  function BareAckStep(w: World, g: nat): World
    requires g < |w.sessions|
  {
    var s := w.sessions[g];
    if s.h.legacy.None? || BareAckRefused(s.h, s.h.legacy.value) then w
    else
      var r := s.h.legacy.value;
      w.(acked := w.acked + {r},
         outstanding := BareAcking(g, r, s.h.epoch, OriginOf(s, r.tp), r.tp in s.h.inFlight))
  }

  /** The broker records the offset unless the failed call never reached it. */
  function Record(w: World, tp: Partition, c: Commit, applied: bool): World {
    if applied then w.(committed := w.committed[tp := c]) else w
  }

  function CommitStep(w: World, applied: bool, outcome: Outcome): World {
    match w.outstanding
    case Acking(g, t, wm, origin) =>
      if g >= |w.sessions| then w else
      Put(Record(w, t.tp, Commit(wm, origin), applied || outcome.Succeeded?), g,
          CommitReturned(w.sessions[g], t, wm, outcome)).(outstanding := Idle)
    case BareAcking(g, r, epoch, origin, tracked) =>
      if g >= |w.sessions| then w else
      var s := w.sessions[g];
      Put(Record(w, r.tp, Commit(r.offset + 1, origin), applied || outcome.Succeeded?), g,
          if outcome.Succeeded? && s.h.epoch == epoch then s.(h := BareAckSettle(s.h, r, tracked)) else s)
      .(outstanding := Idle)
    case _ => w
  }

  /** `owned` says whether the consumer's assignment holds the partition; without it there
      is no seek. */
  function NackStep(w: World, g: nat, t: Token, owned: bool): World
    requires g < |w.sessions|
  {
    var s := w.sessions[g];
    if !IsActive(s.h, t) || s.h.retired then w
    else Put(w, g, if owned then Sought(s, t.tp, t.offset) else s).(outstanding := Nacking(g, t))
  }

  function BareNackStep(w: World, g: nat, owned: bool): World
    requires g < |w.sessions|
  {
    var s := w.sessions[g];
    if s.h.legacy.None? || s.h.retired then w
    else
      var r := s.h.legacy.value;
      Put(w, g, if owned then Sought(s, r.tp, r.offset) else s).(outstanding := BareNacking(g, r, s.h.epoch, owned))
  }

  function SeekStep(w: World, ok: bool): World {
    match w.outstanding
    case Nacking(g, t) =>
      if g >= |w.sessions| then w else
      var s := w.sessions[g];
      if ok && !s.h.retired && IsActive(s.h, t) then Put(w, g, s.(h := Finish(s.h, t))).(outstanding := Idle)
      else w.(outstanding := Idle)
    case BareNacking(g, r, epoch, owned) =>
      if g >= |w.sessions| then w else
      var s := w.sessions[g];
      if ok && !s.h.retired && s.h.epoch == epoch && s.h.legacy == Some(r)
      then Put(w, g, BareNackReturned(s, r, owned)).(outstanding := Idle)
      else w.(outstanding := Idle)
    case _ => w
  }

  function Retire(w: World): World {
    if w.live.Some? && w.live.value < |w.sessions| then
      var s := w.sessions[w.live.value];
      Put(w, w.live.value, s.(h := s.h.(retired := true)))
    else w
  }

  /** An event whose guard fails leaves the world as it is. */
  ghost function Step(log: Log, w: World, e: Event): World {
    match e
    case Connect =>
      if w.live.Some? then w
      else w.(generation := w.generation + 1,
              sessions := w.sessions + [Session(Fresh(w.generation + 1, w.epoch), map[], {})],
              live := Some(|w.sessions|))
    case Assigned(g, resets) =>
      if w.live != Some(g) || g >= |w.sessions| then w
      else Put(w, g, Session(Advance(w.sessions[g].h, w.epoch + 1), Restart(w.committed, resets), {}))
           .(epoch := w.epoch + 1)
    case Deliver(tp, offset) =>
      if !IsNext(log, w, tp, offset) then w
      else Put(w, w.live.value, Delivered(w.sessions[w.live.value], tp, offset, w.lastAttempt + 1))
           .(lastAttempt := w.lastAttempt + 1)
    case DeliverBare(tp, offset) =>
      if !IsNext(log, w, tp, offset) then w
      else Put(w, w.live.value, DeliveredBare(w.sessions[w.live.value], tp, offset))
    case Ack(g, t) => if w.outstanding != Idle || g >= |w.sessions| then w else AckStep(w, g, t)
    case BareAck(g) => if w.outstanding != Idle || g >= |w.sessions| then w else BareAckStep(w, g)
    case CommitReturns(applied, outcome) => CommitStep(w, applied, outcome)
    case Nack(g, t, owned) => if w.outstanding != Idle || g >= |w.sessions| then w else NackStep(w, g, t, owned)
    case BareNack(g, owned) => if w.outstanding != Idle || g >= |w.sessions| then w else BareNackStep(w, g, owned)
    case SeekReturns(ok) => SeekStep(w, ok)
    case Disconnect =>
      Retire(w).(live := None, generation := w.generation + 1, epoch := w.epoch + 1)
  }

  ghost function Run(log: Log, trace: seq<Event>): World {
    if trace == [] then Start else Step(log, Run(log, trace[..|trace| - 1]), trace[|trace| - 1])
  }

  // ----- What every step keeps -----

  /** Every record of the log in [lo, hi) has been acknowledged. */
  ghost predicate Covered(log: Log, acked: set<Key>, tp: Partition, lo: nat, hi: nat) {
    forall o: nat :: lo <= o < hi && Key(tp, o) in log ==> Key(tp, o) in acked
  }

  /** Every record below the frontier is acknowledged, in flight, or about to be
      fetched again. */
  ghost predicate CursorOk(log: Log, acked: set<Key>, tp: Partition, c: Cursor, pending: set<nat>) {
    && c.origin <= c.position <= c.frontier
    && (!c.lost ==> forall o: nat :: c.origin <= o < c.frontier && Key(tp, o) in log ==>
          Key(tp, o) in acked || o in pending || c.hole == Some(o))
    && (c.hole.Some? ==> c.hole.value == c.position < c.frontier && Key(tp, c.position) in log)
  }

  /** A cohort lies between its base and its pop frontier, and every record below the
      base is acknowledged. */
  ghost predicate CohortOk(log: Log, acked: set<Key>, tp: Partition, c: Cursor, pending: set<nat>, base: nat,
                           high: nat) {
    && c.origin <= base <= high <= c.frontier
    && (forall o :: o in pending ==> c.origin <= o < high && Key(tp, o) in log)
    && Covered(log, acked, tp, c.origin, base)
  }

  /** An active attempt's offset is in flight, unless its acknowledgement already took
      it out of flight; a partition with a hole, or lost, has no active attempt. */
  predicate AttemptOk(acked: set<Key>, last: nat, k: Key, a: nat, c: Cursor, pending: set<nat>, unsettled: set<nat>) {
    && 0 < a <= last
    && c.origin <= k.offset < c.frontier
    && c.hole.None? && !c.lost
    && (k.offset in pending || (a in unsettled && k in acked))
  }

  predicate DomainsAgree(s: Session) {
    && s.h.inFlight.Keys == s.h.watermarks.Keys == s.h.highWater.Keys
    && s.h.inFlight.Keys <= s.cursors.Keys
    && (forall k :: k in s.h.attempts ==> k.tp in s.cursors)
  }

  ghost predicate CursorsOk(log: Log, acked: set<Key>, s: Session) {
    forall tp :: tp in s.cursors ==> CursorOk(log, acked, tp, s.cursors[tp], s.h.Pending(tp))
  }

  ghost predicate CohortsOk(log: Log, acked: set<Key>, s: Session)
    requires DomainsAgree(s)
  {
    forall tp :: tp in s.h.inFlight ==>
      CohortOk(log, acked, tp, s.cursors[tp], s.h.inFlight[tp], s.h.watermarks[tp], s.h.highWater[tp])
  }

  predicate AttemptsOk(acked: set<Key>, last: nat, s: Session)
    requires DomainsAgree(s)
  {
    && (forall k :: k in s.h.attempts ==>
          AttemptOk(acked, last, k, s.h.attempts[k], s.cursors[k.tp], s.h.Pending(k.tp), s.unsettled))
    && (forall a :: a in s.unsettled ==> a <= last)
  }

  /** Tokens and the legacy slot name records of the log. */
  ghost predicate RecordsOk(log: Log, s: Session) {
    && (forall k :: k in s.h.attempts ==> k in log)
    && (s.h.legacy.Some? ==>
      var r := s.h.legacy.value;
      && r in log && r.tp in s.cursors
      && s.cursors[r.tp].origin <= r.offset < s.cursors[r.tp].frontier
      && s.cursors[r.tp].hole.None? && !s.cursors[r.tp].lost)
  }

  ghost predicate SessionOk(log: Log, acked: set<Key>, last: nat, s: Session) {
    && DomainsAgree(s)
    && CursorsOk(log, acked, s)
    && CohortsOk(log, acked, s)
    && AttemptsOk(acked, last, s)
    && IndexAgrees(s.h)
    && RecordsOk(log, s)
  }

  lemma SessionOkSays(log: Log, acked: set<Key>, last: nat, s: Session)
    requires SessionOk(log, acked, last, s)
    ensures IndexAgrees(s.h) && s.h.inFlight.Keys <= s.cursors.Keys
  {
  }

  lemma SessionOkMonotone(log: Log, acked: set<Key>, more: set<Key>, last: nat, later: nat, s: Session)
    requires SessionOk(log, acked, last, s) && acked <= more && last <= later
    ensures SessionOk(log, more, later, s)
  {
    forall tp | tp in s.cursors ensures CursorOk(log, more, tp, s.cursors[tp], s.h.Pending(tp)) {
      assert CursorOk(log, acked, tp, s.cursors[tp], s.h.Pending(tp));
    }
  }

  lemma PruneKeeps(log: Log, acked: set<Key>, last: nat, s: Session, tp: Partition)
    requires SessionOk(log, acked, last, s)
    ensures SessionOk(log, acked, last, s.(h := PruneIfDrained(s.h, tp)))
  {
    var p := s.(h := PruneIfDrained(s.h, tp));
    assert forall q :: p.h.Pending(q) == s.h.Pending(q);
  }

  lemma FinishKeeps(log: Log, acked: set<Key>, last: nat, s: Session, t: Token)
    requires SessionOk(log, acked, last, s)
    ensures SessionOk(log, acked, last, s.(h := Finish(s.h, t)))
  {
    FinishKeepsIndex(s.h, t);
    var f := s.(h := Finish(s.h, t));
    assert forall q :: f.h.Pending(q) == s.h.Pending(q);
  }

  function Removed(s: Session, tp: Partition, offset: nat): Session
    requires tp in s.h.inFlight
  {
    s.(h := s.h.(inFlight := s.h.inFlight[tp := s.h.inFlight[tp] - {offset}]))
  }

  /** What removing an offset from flight changes: what is pending in its partition. */
  lemma RemovedShape(s: Session, tp: Partition, offset: nat)
    requires tp in s.h.inFlight
    ensures Removed(s, tp, offset).h.Pending(tp) == s.h.Pending(tp) - {offset}
    ensures forall q :: q != tp ==> Removed(s, tp, offset).h.Pending(q) == s.h.Pending(q)
  {
  }

  lemma RemoveAttempts(log: Log, acked: set<Key>, last: nat, s: Session, tp: Partition, offset: nat, attempt: nat)
    requires SessionOk(log, acked, last, s)
    requires tp in s.h.inFlight && Key(tp, offset) in acked && attempt <= last
    requires Key(tp, offset) in s.h.attempts ==> s.h.attempts[Key(tp, offset)] == attempt
    ensures var r := Removed(s, tp, offset).(unsettled := s.unsettled + {attempt});
            DomainsAgree(r) && AttemptsOk(acked, last, r)
  {
    var r := Removed(s, tp, offset).(unsettled := s.unsettled + {attempt});
    hide CursorsOk, CohortsOk, CursorOk, CohortOk, IndexAgrees, RecordsOk, Handles.Pending, AttemptOk;
    RemovedShape(s, tp, offset);
    forall k | k in r.h.attempts
      ensures AttemptOk(acked, last, k, r.h.attempts[k], r.cursors[k.tp], r.h.Pending(k.tp), r.unsettled)
    {
      RemovedAttempt(acked, last, k, s.h.attempts[k], s.cursors[k.tp], s.h.Pending(k.tp), s.unsettled, Key(tp, offset),
                     attempt);
    }
  }

  lemma RemovedAttempt(acked: set<Key>, last: nat, k: Key, a: nat, c: Cursor, pending: set<nat>, unsettled: set<nat>,
                       gone: Key, attempt: nat)
    requires AttemptOk(acked, last, k, a, c, pending, unsettled) && (k == gone ==> a == attempt && gone in acked)
    ensures AttemptOk(acked, last, k, a, c,
                      if k.tp == gone.tp then pending - {gone.offset} else pending, unsettled + {attempt})
  {
    if k.tp == gone.tp && k.offset == gone.offset { assert k == gone; }
  }

  /** Removing an acknowledged offset from flight. */
  lemma RemoveKeeps(log: Log, acked: set<Key>, last: nat, s: Session, tp: Partition, offset: nat, attempt: nat)
    requires SessionOk(log, acked, last, s)
    requires tp in s.h.inFlight && Key(tp, offset) in acked && attempt <= last
    requires Key(tp, offset) in s.h.attempts ==> s.h.attempts[Key(tp, offset)] == attempt
    ensures SessionOk(log, acked, last, Removed(s, tp, offset).(unsettled := s.unsettled + {attempt}))
  {
    hide AttemptsOk, CursorOk, CohortOk, AttemptOk, CursorsOk, CohortsOk;
    RemoveAttempts(log, acked, last, s, tp, offset, attempt);
    RemoveCursors(log, acked, s, tp, offset, attempt);
    hide Handles.Pending;
  }

  lemma RemoveCursors(log: Log, acked: set<Key>, s: Session, tp: Partition, offset: nat, attempt: nat)
    requires DomainsAgree(s) && CursorsOk(log, acked, s) && CohortsOk(log, acked, s)
    requires tp in s.h.inFlight && Key(tp, offset) in acked
    ensures var r := Removed(s, tp, offset).(unsettled := s.unsettled + {attempt});
            DomainsAgree(r) && CursorsOk(log, acked, r) && CohortsOk(log, acked, r)
  {
    hide CursorOk, CohortOk, Handles.Pending;
    RemovedShape(s, tp, offset);
    PendingIs(s.h, tp);
    OffsetLeaves(log, acked, tp, s.cursors[tp], s.h.inFlight[tp], s.h.watermarks[tp], s.h.highWater[tp], offset);
  }

  lemma PendingIs(h: Handles, tp: Partition)
    requires tp in h.inFlight
    ensures h.Pending(tp) == h.inFlight[tp]
  {
  }

  lemma OffsetLeaves(log: Log, acked: set<Key>, tp: Partition, c: Cursor, pending: set<nat>, base: nat, high: nat,
                     offset: nat)
    requires CursorOk(log, acked, tp, c, pending) && CohortOk(log, acked, tp, c, pending, base, high)
    requires Key(tp, offset) in acked
    ensures CursorOk(log, acked, tp, c, pending - {offset})
    ensures CohortOk(log, acked, tp, c, pending - {offset}, base, high)
  {
  }

  /** Attempts that are no longer in the table need no record of being unsettled. */
  lemma ForgetKeeps(log: Log, acked: set<Key>, last: nat, s: Session, fewer: set<nat>)
    requires SessionOk(log, acked, last, s)
    requires fewer <= s.unsettled
    requires forall k :: k in s.h.attempts && s.h.attempts[k] in s.unsettled ==> s.h.attempts[k] in fewer
    ensures SessionOk(log, acked, last, s.(unsettled := fewer))
  {
    hide CursorOk, CohortOk, IndexAgrees;
    var f := s.(unsettled := fewer);
    forall k | k in f.h.attempts
      ensures AttemptOk(acked, last, k, f.h.attempts[k], f.cursors[k.tp], f.h.Pending(k.tp), f.unsettled)
    {
      assert AttemptOk(acked, last, k, s.h.attempts[k], s.cursors[k.tp], s.h.Pending(k.tp), s.unsettled);
    }
  }

  /** Registering the next record of the log closes a hole and extends the delivered
      range without a gap. */
  lemma CursorAdvances(log: Log, acked: set<Key>, tp: Partition, c: Cursor, pending: set<nat>, offset: nat)
    requires CursorOk(log, acked, tp, c, pending) && NextRecord(log, tp, c, offset)
    ensures CursorOk(log, acked, tp, Advanced(c, offset), pending + {offset})
  {
  }

  /** The first record of a cohort is a sound commit base. */
  lemma CohortSeeds(log: Log, acked: set<Key>, tp: Partition, c: Cursor, offset: nat)
    requires CursorOk(log, acked, tp, c, {}) && NextRecord(log, tp, c, offset)
    ensures CohortOk(log, acked, tp, Advanced(c, offset), {offset}, offset, offset + 1)
  {
  }

  lemma RegisteredShape(h: Handles, tp: Partition, offset: nat)
    ensures Register(h, tp, offset).Pending(tp) == h.Pending(tp) + {offset}
    ensures forall q :: q != tp ==> Register(h, tp, offset).Pending(q) == h.Pending(q)
  {
  }

  lemma RegisterKeeps(log: Log, acked: set<Key>, last: nat, s: Session, tp: Partition, offset: nat)
    requires SessionOk(log, acked, last, s)
    requires tp in s.cursors && NextRecord(log, tp, s.cursors[tp], offset)
    ensures SessionOk(log, acked, last, Session(Register(s.h, tp, offset), Moved(s, tp, offset), s.unsettled))
  {
    hide CursorOk, CohortOk, CohortsOk, NextRecord, Handles.Pending;
    var r := Session(Register(s.h, tp, offset), Moved(s, tp, offset), s.unsettled);
    var c := s.cursors[tp];
    assert r.cursors == s.cursors[tp := Advanced(c, offset)];
    CursorAdvances(log, acked, tp, c, s.h.Pending(tp), offset);
    RegisteredShape(s.h, tp, offset);
    RegisterKeepsCohorts(log, acked, last, s, tp, offset);
    forall k | k in r.h.attempts
      ensures AttemptOk(acked, last, k, r.h.attempts[k], r.cursors[k.tp], r.h.Pending(k.tp), r.unsettled)
    {
      assert AttemptOk(acked, last, k, s.h.attempts[k], s.cursors[k.tp], s.h.Pending(k.tp), s.unsettled);
    }
  }

  lemma RegisterKeepsCohorts(log: Log, acked: set<Key>, last: nat, s: Session, tp: Partition, offset: nat)
    requires SessionOk(log, acked, last, s)
    requires tp in s.cursors && NextRecord(log, tp, s.cursors[tp], offset)
    ensures var r := Session(Register(s.h, tp, offset), Moved(s, tp, offset), s.unsettled);
            DomainsAgree(r) && CohortsOk(log, acked, r)
  {
    var r := Session(Register(s.h, tp, offset), Moved(s, tp, offset), s.unsettled);
    var c := s.cursors[tp];
    assert CursorOk(log, acked, tp, c, s.h.Pending(tp));
    if tp in s.h.inFlight {
      assert CohortOk(log, acked, tp, c, s.h.inFlight[tp], s.h.watermarks[tp], s.h.highWater[tp]);
    } else {
      CohortSeeds(log, acked, tp, c, offset);
    }
    assert CohortOk(log, acked, tp, r.cursors[tp], r.h.inFlight[tp], r.h.watermarks[tp], r.h.highWater[tp]);
  }

  lemma DeliverBareKeeps(log: Log, acked: set<Key>, last: nat, s: Session, tp: Partition, offset: nat)
    requires SessionOk(log, acked, last, s)
    requires tp in s.cursors && NextRecord(log, tp, s.cursors[tp], offset)
    ensures SessionOk(log, acked, last, DeliveredBare(s, tp, offset))
  {
    RegisterKeeps(log, acked, last, s, tp, offset);
    assert CursorOk(log, acked, tp, s.cursors[tp], s.h.Pending(tp));
    var r := Session(Register(s.h, tp, offset), Moved(s, tp, offset), s.unsettled);
    var d := DeliveredBare(s, tp, offset);
    assert forall q :: d.h.Pending(q) == r.h.Pending(q);
  }

  lemma DeliverKeeps(log: Log, acked: set<Key>, last: nat, s: Session, tp: Partition, offset: nat)
    requires SessionOk(log, acked, last, s)
    requires tp in s.cursors && NextRecord(log, tp, s.cursors[tp], offset)
    ensures SessionOk(log, acked, last + 1, Delivered(s, tp, offset, last + 1))
  {
    RegisterKeeps(log, acked, last, s, tp, offset);
    assert CursorOk(log, acked, tp, s.cursors[tp], s.h.Pending(tp));
    var r := Session(Register(s.h, tp, offset), Moved(s, tp, offset), s.unsettled);
    var d := Delivered(s, tp, offset, last + 1);
    forall k | k in s.h.attempts ensures s.h.attempts[k] < last + 1 {
      assert AttemptOk(acked, last, k, s.h.attempts[k], s.cursors[k.tp], s.h.Pending(k.tp), s.unsettled);
    }
    PopKeepsIndex(s.h, tp, offset, last + 1);
    assert forall q :: d.h.Pending(q) == r.h.Pending(q);
    forall k | k in d.h.attempts
      ensures AttemptOk(acked, last + 1, k, d.h.attempts[k], d.cursors[k.tp], d.h.Pending(k.tp), d.unsettled)
    {
      if k != Key(tp, offset) {
        assert AttemptOk(acked, last, k, r.h.attempts[k], r.cursors[k.tp], r.h.Pending(k.tp), r.unsettled);
      }
    }
  }

  /** An assignment change drops all local state and restarts at covered offsets. */
  lemma AdvanceKeeps(log: Log, acked: set<Key>, last: nat, s: Session, epoch: nat,
                     committed: map<Partition, Commit>, resets: map<Partition, nat>)
    requires CommittedOk(log, acked, committed)
    ensures SessionOk(log, acked, last, Session(Advance(s.h, epoch), Restart(committed, resets), {}))
  {
    var a := Session(Advance(s.h, epoch), Restart(committed, resets), {});
    forall tp | tp in a.cursors
      ensures CursorOk(log, acked, tp, a.cursors[tp], a.h.Pending(tp))
    {
      if tp in committed {
        assert Covered(log, acked, tp, committed[tp].origin, committed[tp].offset);
      }
    }
  }

  ghost predicate CommittedOk(log: Log, acked: set<Key>, committed: map<Partition, Commit>) {
    forall tp :: tp in committed ==>
      committed[tp].origin <= committed[tp].offset
          && Covered(log, acked, tp, committed[tp].origin, committed[tp].offset)
  }

  /** While the commit of an acknowledgement is out, its session, if the token is still
      active, has the offset out of flight and a watermark it may adopt. */
  predicate AckingOk(s: Session, t: Token, watermark: nat, origin: nat) {
    && t.attempt in s.unsettled
    && t.tp in s.h.inFlight && t.tp in s.h.watermarks && t.tp in s.h.highWater && t.tp in s.cursors
    && origin == s.cursors[t.tp].origin
    && t.offset !in s.h.inFlight[t.tp]
    && s.h.watermarks[t.tp] < watermark <= s.h.highWater[t.tp]
    && t.offset < s.h.highWater[t.tp]
  }

  lemma AckBeginKeeps(log: Log, acked: set<Key>, last: nat, s: Session, t: Token)
    requires SessionOk(log, acked, last, s)
    ensures var (h, plan) := AckBegin(s.h, t);
            match plan
            case Stale => h == s.h
            case AlreadyRemoved => SessionOk(log, acked, last, s.(h := h))
            case NoCommit => SessionOk(log, acked + {KeyOf(t)}, last, s.(h := h))
            case SendCommit(wm) =>
              var n := s.(h := h, unsettled := s.unsettled + {t.attempt});
              && SessionOk(log, acked + {KeyOf(t)}, last, n)
              && IsActive(n.h, t)
              && AckingOk(n, t, wm, OriginOf(s, t.tp))
              && Covered(log, acked + {KeyOf(t)}, t.tp, OriginOf(s, t.tp), wm)
              && OriginOf(s, t.tp) <= wm
  {
    if IsActive(s.h, t) {
      var key := KeyOf(t);
      assert AttemptOk(acked, last, key, s.h.attempts[key], s.cursors[key.tp], s.h.Pending(key.tp), s.unsettled);
      if t.offset !in s.h.Pending(t.tp) {
        FinishKeeps(log, acked, last, s, t);
        PruneKeeps(log, acked, last, s.(h := Finish(s.h, t)), t.tp);
      } else {
        var now := acked + {key};
        SessionOkMonotone(log, acked, now, last, last, s);
        RemoveKeeps(log, now, last, s, t.tp, t.offset, t.attempt);
        AckBeginWalks(log, acked, last, s, t);
      }
    }
  }

  lemma AckBeginWalks(log: Log, acked: set<Key>, last: nat, s: Session, t: Token)
    requires SessionOk(log, acked, last, s) && IsActive(s.h, t) && t.tp in s.h.inFlight
             && t.offset in s.h.inFlight[t.tp]
    requires SessionOk(log, acked + {KeyOf(t)}, last,
                       Removed(s, t.tp, t.offset).(unsettled := s.unsettled + {t.attempt}))
    ensures var (h, plan) := AckBegin(s.h, t);
            match plan
            case NoCommit => SessionOk(log, acked + {KeyOf(t)}, last, s.(h := h))
            case SendCommit(wm) =>
              && h == Removed(s, t.tp, t.offset).h
              && AckingOk(s.(h := h, unsettled := s.unsettled + {t.attempt}), t, wm, OriginOf(s, t.tp))
              && Covered(log, acked + {KeyOf(t)}, t.tp, OriginOf(s, t.tp), wm)
              && OriginOf(s, t.tp) <= wm
            case _ => false
  {
    hide SessionOk, CursorOk, Covered, PruneIfDrained, Watermark, Finish;
    var now := acked + {KeyOf(t)};
    var r := Removed(s, t.tp, t.offset).(unsettled := s.unsettled + {t.attempt});
    InFlightSays(log, acked, last, s, t);
    TokenInRange(log, acked, last, s, t);
    assert s.h.watermarks[t.tp := s.h.watermarks[t.tp]] == s.h.watermarks;
    CursorSays(log, now, last, r, t.tp);
    CoveredMonotone(log, acked, now, t.tp, s.cursors[t.tp].origin, s.h.watermarks[t.tp]);
    WalkCovers(log, now, t.tp, s.cursors[t.tp], r.h.inFlight[t.tp], s.h.watermarks[t.tp], s.h.highWater[t.tp]);
    SettleKeeps(log, now, last, r, t, s.unsettled);
  }

  lemma CohortIn(log: Log, acked: set<Key>, last: nat, s: Session, tp: Partition)
    requires SessionOk(log, acked, last, s) && tp in s.h.inFlight
    ensures tp in s.cursors && tp in s.h.watermarks && tp in s.h.highWater && s.h.Pending(tp) == s.h.inFlight[tp]
    ensures CohortOk(log, acked, tp, s.cursors[tp], s.h.inFlight[tp], s.h.watermarks[tp], s.h.highWater[tp])
  {
    hide CursorOk;
  }

  lemma CoveredMonotone(log: Log, acked: set<Key>, more: set<Key>, tp: Partition, lo: nat, hi: nat)
    requires Covered(log, acked, tp, lo, hi) && acked <= more
    ensures Covered(log, more, tp, lo, hi)
  {
  }

  lemma CursorSays(log: Log, acked: set<Key>, last: nat, s: Session, tp: Partition)
    requires SessionOk(log, acked, last, s) && tp in s.cursors
    ensures CursorOk(log, acked, tp, s.cursors[tp], s.h.Pending(tp))
  {
  }

  /** Where the cohort of an offset in flight stands. */
  lemma InFlightSays(log: Log, acked: set<Key>, last: nat, s: Session, t: Token)
    requires SessionOk(log, acked, last, s) && t.tp in s.h.inFlight && t.offset in s.h.inFlight[t.tp]
    ensures t.tp in s.h.watermarks && t.tp in s.h.highWater && t.tp in s.cursors
    ensures var c, base, high := s.cursors[t.tp], s.h.watermarks[t.tp], s.h.highWater[t.tp];
            c.origin <= base <= high <= c.frontier && Covered(log, acked, t.tp, c.origin, base) && t.offset < high
  {
    hide CohortOk, Covered;
    CohortSays(log, acked, t.tp, s.cursors[t.tp], s.h.inFlight[t.tp], s.h.watermarks[t.tp], s.h.highWater[t.tp]);
  }

  lemma CohortSays(log: Log, acked: set<Key>, tp: Partition, c: Cursor, pending: set<nat>, base: nat, high: nat)
    requires CohortOk(log, acked, tp, c, pending, base, high)
    ensures c.origin <= base <= high <= c.frontier && Covered(log, acked, tp, c.origin, base)
    ensures forall o :: o in pending ==> o < high
  {
  }

  /** Everything the walk passes has been acknowledged. */
  lemma WalkCovers(log: Log, acked: set<Key>, tp: Partition, c: Cursor, pending: set<nat>, base: nat, high: nat)
    requires CursorOk(log, acked, tp, c, pending) && c.hole.None? && !c.lost
    requires c.origin <= base <= high <= c.frontier && Covered(log, acked, tp, c.origin, base)
    ensures Covered(log, acked, tp, c.origin, Watermark(pending, base, high))
  {
  }

  /** Finishing an attempt, forgetting that it was unsettled, and pruning. */
  lemma SettleKeeps(log: Log, acked: set<Key>, last: nat, s: Session, t: Token, fewer: set<nat>)
    requires SessionOk(log, acked, last, s) && IsActive(s.h, t)
    requires s.unsettled - {t.attempt} <= fewer <= s.unsettled
    ensures SessionOk(log, acked, last, Session(PruneIfDrained(Finish(s.h, t), t.tp), s.cursors, fewer))
  {
    assert Unique(s.h.attempts);
    hide SessionOk, PruneIfDrained;
    FinishKeeps(log, acked, last, s, t);
    var f := s.(h := Finish(s.h, t));
    assert f.h.attempts == s.h.attempts - {KeyOf(t)};
    ForgetKeeps(log, acked, last, f, fewer);
    PruneKeeps(log, acked, last, f.(unsettled := fewer), t.tp);
  }

  /** What a returned commit leaves behind. */
  lemma CommitReturnedKeeps(log: Log, acked: set<Key>, last: nat, s: Session, t: Token, wm: nat, origin: nat,
                            outcome: Outcome)
    requires SessionOk(log, acked, last, s)
    requires IsActive(s.h, t) ==> AckingOk(s, t, wm, origin)
    requires Covered(log, acked, t.tp, origin, wm)
    ensures SessionOk(log, acked, last, CommitReturned(s, t, wm, outcome))
  {
    if IsActive(s.h, t) {
      match outcome
      case Interrupted =>
      case Succeeded =>
        AdoptKeeps(log, acked, last, s, t, wm, origin);
        SettleKeeps(log, acked, last, s.(h := s.h.(watermarks := s.h.watermarks[t.tp := wm])), t,
                    s.unsettled - {t.attempt});
      case KafkaError =>
        RestoreKeeps(log, acked, last, s, t, wm, origin);
    }
  }

  lemma AdoptKeeps(log: Log, acked: set<Key>, last: nat, s: Session, t: Token, wm: nat, origin: nat)
    requires SessionOk(log, acked, last, s) && AckingOk(s, t, wm, origin)
    requires Covered(log, acked, t.tp, origin, wm)
    ensures SessionOk(log, acked, last, s.(h := s.h.(watermarks := s.h.watermarks[t.tp := wm])))
  {
    var c := s.cursors[t.tp];
    var m := s.(h := s.h.(watermarks := s.h.watermarks[t.tp := wm]));
    assert CohortOk(log, acked, t.tp, c, s.h.inFlight[t.tp], s.h.watermarks[t.tp], s.h.highWater[t.tp]);
    assert forall q :: m.h.Pending(q) == s.h.Pending(q);
  }

  /** The session with the record of `t` put back. */
  function Restored(s: Session, t: Token): Session {
    Session(AckRestore(s.h, t), s.cursors, s.unsettled - {t.attempt})
  }

  /** What putting the record back changes: its partition's offsets in flight. */
  lemma RestoredShape(log: Log, acked: set<Key>, last: nat, s: Session, t: Token, wm: nat, origin: nat)
    requires SessionOk(log, acked, last, s) && IsActive(s.h, t) && AckingOk(s, t, wm, origin)
    ensures var r := Restored(s, t);
            && DomainsAgree(r) && IndexAgrees(r.h) && RecordsOk(log, r)
            && r.h.attempts == s.h.attempts && r.h.watermarks == s.h.watermarks && r.h.highWater == s.h.highWater
            && t.tp in s.h.inFlight && r.h.inFlight == s.h.inFlight[t.tp := s.h.inFlight[t.tp] + {t.offset}]
            && (forall q :: q != t.tp ==> r.h.Pending(q) == s.h.Pending(q))
            && r.h.Pending(t.tp) == s.h.Pending(t.tp) + {t.offset}
  {
    hide CursorsOk, CohortsOk, AttemptsOk, CohortOk, CursorOk, AttemptOk;
  }

  lemma RestoreAttempts(log: Log, acked: set<Key>, last: nat, s: Session, t: Token, wm: nat, origin: nat)
    requires SessionOk(log, acked, last, s) && IsActive(s.h, t) && AckingOk(s, t, wm, origin)
    ensures DomainsAgree(Restored(s, t)) && AttemptsOk(acked, last, Restored(s, t))
  {
    hide CursorsOk, CohortsOk, RecordsOk, CohortOk, CursorOk, AckRestore, IndexAgrees, Handles.Pending, AttemptOk;
    RestoredShape(log, acked, last, s, t, wm, origin);
    var r := Restored(s, t);
    forall k | k in r.h.attempts
      ensures AttemptOk(acked, last, k, r.h.attempts[k], r.cursors[k.tp], r.h.Pending(k.tp), r.unsettled)
    {
      if s.h.attempts[k] == t.attempt { SameNumber(s.h, k, t); }
      RestoredAttempt(acked, last, k, s.h.attempts[k], s.cursors[k.tp], s.h.Pending(k.tp), s.unsettled, t);
    }
  }

  /** Distinct attempts have distinct numbers. */
  lemma SameNumber(h: Handles, k: Key, t: Token)
    requires IndexAgrees(h) && IsActive(h, t) && k in h.attempts && h.attempts[k] == t.attempt
    ensures k == KeyOf(t)
  {
  }

  lemma RestoredAttempt(acked: set<Key>, last: nat, k: Key, a: nat, c: Cursor, pending: set<nat>, unsettled: set<nat>,
                        t: Token)
    requires AttemptOk(acked, last, k, a, c, pending, unsettled) && (a == t.attempt ==> k == KeyOf(t))
    ensures AttemptOk(acked, last, k, a, c,
                      if k.tp == t.tp then pending + {t.offset} else pending, unsettled - {t.attempt})
  {
  }

  lemma RestoreKeeps(log: Log, acked: set<Key>, last: nat, s: Session, t: Token, wm: nat, origin: nat)
    requires SessionOk(log, acked, last, s) && IsActive(s.h, t) && AckingOk(s, t, wm, origin)
    ensures SessionOk(log, acked, last, Restored(s, t))
  {
    hide AttemptsOk, RecordsOk, IndexAgrees, AckRestore, Handles.Pending, CohortOk, CursorOk, Covered;
    var r := Restored(s, t);
    RestoredShape(log, acked, last, s, t, wm, origin);
    RestoreAttempts(log, acked, last, s, t, wm, origin);
    TokenInRange(log, acked, last, s, t);
    PendingIs(s.h, t.tp);
    CohortIn(log, acked, last, s, t.tp);
    OffsetJoins(log, acked, t.tp, s.cursors[t.tp], s.h.Pending(t.tp), s.h.watermarks[t.tp], s.h.highWater[t.tp],
                t.offset);
  }

  lemma OffsetJoins(log: Log, acked: set<Key>, tp: Partition, c: Cursor, pending: set<nat>, base: nat, high: nat,
                    offset: nat)
    requires CursorOk(log, acked, tp, c, pending) && CohortOk(log, acked, tp, c, pending, base, high)
    requires Key(tp, offset) in log && c.origin <= offset < high
    ensures CursorOk(log, acked, tp, c, pending + {offset})
    ensures CohortOk(log, acked, tp, c, pending + {offset}, base, high)
  {
  }

  /** A seek goes back to an offset of the delivered range. */
  lemma SeekKeeps(log: Log, acked: set<Key>, last: nat, s: Session, tp: Partition, offset: nat)
    requires SessionOk(log, acked, last, s)
    requires tp in s.cursors && s.cursors[tp].hole.None?
    requires s.cursors[tp].origin <= offset < s.cursors[tp].frontier
    ensures SessionOk(log, acked, last, Sought(s, tp, offset))
  {
    var k := Sought(s, tp, offset);
    assert CursorOk(log, acked, tp, s.cursors[tp], s.h.Pending(tp));
    assert CursorOk(log, acked, tp, k.cursors[tp], k.h.Pending(tp));
    if tp in s.h.inFlight {
      assert CohortOk(log, acked, tp, s.cursors[tp], s.h.inFlight[tp], s.h.watermarks[tp], s.h.highWater[tp]);
    }
    forall a | a in k.h.attempts
      ensures AttemptOk(acked, last, a, k.h.attempts[a], k.cursors[a.tp], k.h.Pending(a.tp), k.unsettled)
    {
      assert AttemptOk(acked, last, a, s.h.attempts[a], s.cursors[a.tp], s.h.Pending(a.tp), s.unsettled);
    }
  }

  lemma AttemptsPositive(log: Log, acked: set<Key>, last: nat, s: Session)
    requires SessionOk(log, acked, last, s)
    ensures forall k :: k in s.h.attempts ==> s.h.attempts[k] != 0
  {
    hide CursorOk, CohortOk, IndexAgrees;
    forall k | k in s.h.attempts ensures s.h.attempts[k] != 0 {
      assert AttemptOk(acked, last, k, s.h.attempts[k], s.cursors[k.tp], s.h.Pending(k.tp), s.unsettled);
    }
  }

  /** Dropping a record that carries no attempt from flight. */
  lemma DropKeeps(log: Log, acked: set<Key>, last: nat, s: Session, record: Key)
    requires SessionOk(log, acked, last, s) && record in acked && !s.h.HasActive(record.tp)
    requires record.tp in s.h.inFlight
    ensures SessionOk(log, acked, last, s.(h := PruneIfDrained(Removed(s, record.tp, record.offset).h, record.tp)))
  {
    hide SessionOk, PruneIfDrained;
    AttemptsPositive(log, acked, last, s);
    SessionOkSays(log, acked, last, s);
    ActiveMeansAttempt(s.h, record.tp);
    hide IndexAgrees, Handles.HasActive;
    RemoveKeeps(log, acked, last, s, record.tp, record.offset, 0);
    var r := Removed(s, record.tp, record.offset).(unsettled := s.unsettled + {0});
    ForgetKeeps(log, acked, last, r, s.unsettled);
    PruneKeeps(log, acked, last, r.(unsettled := s.unsettled), record.tp);
  }

  lemma ClearLegacyKeeps(log: Log, acked: set<Key>, last: nat, s: Session)
    requires SessionOk(log, acked, last, s)
    ensures SessionOk(log, acked, last, s.(h := s.h.(legacy := None)))
  {
    var c := s.(h := s.h.(legacy := None));
    assert forall q :: c.h.Pending(q) == s.h.Pending(q);
  }

  lemma BareAckSettleKeeps(log: Log, acked: set<Key>, last: nat, s: Session, record: Key, tracked: bool)
    requires SessionOk(log, acked, last, s) && record in acked && !s.h.HasActive(record.tp)
    ensures SessionOk(log, acked, last, s.(h := BareAckSettle(s.h, record, tracked)))
  {
    var c := if s.h.legacy == Some(record) then s.(h := s.h.(legacy := None)) else s;
    ClearLegacyKeeps(log, acked, last, s);
    if tracked && record.tp in c.h.inFlight {
      DropKeeps(log, acked, last, c, record);
    }
  }

  /** A bare acknowledgement that is not refused may commit one past its record. */
  lemma BareAckCovers(log: Log, acked: set<Key>, last: nat, s: Session)
    requires SessionOk(log, acked, last, s)
    requires s.h.legacy.Some? && !BareAckRefused(s.h, s.h.legacy.value)
    ensures var r := s.h.legacy.value;
            Covered(log, acked + {r}, r.tp, OriginOf(s, r.tp), r.offset + 1) && OriginOf(s, r.tp) <= r.offset
  {
    var r := s.h.legacy.value;
    assert CursorOk(log, acked, r.tp, s.cursors[r.tp], s.h.Pending(r.tp));
  }

  /** A bare nack that found no active attempt drops its record from flight and leaves
      a hole that the very next fetch fills; of a partition no longer assigned it leaves
      nothing that could still be acknowledged. */
  lemma BareNackReturnedKeeps(log: Log, acked: set<Key>, last: nat, s: Session, record: Key, owned: bool)
    requires SessionOk(log, acked, last, s) && s.h.legacy == Some(record)
    requires owned && record.tp in s.cursors ==> s.cursors[record.tp].position == record.offset
    ensures SessionOk(log, acked, last, BareNackReturned(s, record, owned))
  {
    hide SessionOk, IndexAgrees, DomainsAgree, PruneIfDrained;
    var c := s.(h := s.h.(legacy := None));
    SessionOkSays(log, acked, last, s);
    LegacyInRange(log, acked, last, s);
    ClearLegacyKeeps(log, acked, last, s);
    if record.tp in s.h.inFlight && !s.h.HasActive(record.tp) {
      ActiveMeansAttempt(s.h, record.tp);
      assert record == Key(record.tp, record.offset);
      if owned {
        HoleKeeps(log, acked, last, c, record.tp);
        PruneKeeps(log, acked, last, Holed(c, record.tp), record.tp);
      } else {
        LossKeeps(log, acked, last, c, record.tp, record.offset);
        PruneKeeps(log, acked, last, Lost(c, record.tp, record.offset), record.tp);
      }
    }
  }

  function Lost(s: Session, tp: Partition, offset: nat): Session
    requires tp in s.h.inFlight && tp in s.cursors
  {
    Session(Removed(s, tp, offset).h, s.cursors[tp := s.cursors[tp].(lost := true)], s.unsettled)
  }

  lemma LossKeeps(log: Log, acked: set<Key>, last: nat, s: Session, tp: Partition, offset: nat)
    requires SessionOk(log, acked, last, s) && s.h.legacy.None?
    requires tp in s.h.inFlight && (forall k :: k in s.h.attempts ==> k.tp != tp)
    ensures SessionOk(log, acked, last, Lost(s, tp, offset))
  {
    hide CursorOk, CohortOk, AttemptOk, Handles.Pending;
    var d := Lost(s, tp, offset);
    RemovedShape(s, tp, offset);
    PendingIs(s.h, tp);
    PartitionLost(log, acked, tp, s.cursors[tp], s.h.inFlight[tp], s.h.watermarks[tp], s.h.highWater[tp], offset);
  }

  lemma PartitionLost(log: Log, acked: set<Key>, tp: Partition, c: Cursor, pending: set<nat>, base: nat, high: nat,
                      offset: nat)
    requires CursorOk(log, acked, tp, c, pending) && CohortOk(log, acked, tp, c, pending, base, high)
    ensures CursorOk(log, acked, tp, c.(lost := true), pending - {offset})
    ensures CohortOk(log, acked, tp, c.(lost := true), pending - {offset}, base, high)
  {
  }

  lemma HoleOpens(log: Log, acked: set<Key>, tp: Partition, c: Cursor, pending: set<nat>, base: nat, high: nat)
    requires CursorOk(log, acked, tp, c, pending) && CohortOk(log, acked, tp, c, pending, base, high)
    requires c.position < c.frontier && c.hole.None? && Key(tp, c.position) in log
    ensures CursorOk(log, acked, tp, c.(hole := Some(c.position)), pending - {c.position})
    ensures CohortOk(log, acked, tp, c.(hole := Some(c.position)), pending - {c.position}, base, high)
  {
  }

  function Holed(s: Session, tp: Partition): Session
    requires tp in s.h.inFlight && tp in s.cursors
  {
    var c := s.cursors[tp];
    Session(Removed(s, tp, c.position).h, s.cursors[tp := c.(hole := Some(c.position))], s.unsettled)
  }

  lemma HoleKeeps(log: Log, acked: set<Key>, last: nat, s: Session, tp: Partition)
    requires SessionOk(log, acked, last, s) && s.h.legacy.None?
    requires tp in s.h.inFlight && (forall k :: k in s.h.attempts ==> k.tp != tp)
    requires s.cursors[tp].position < s.cursors[tp].frontier && s.cursors[tp].hole.None?
    requires Key(tp, s.cursors[tp].position) in log
    ensures SessionOk(log, acked, last, Holed(s, tp))
  {
    hide CursorOk, CohortOk, AttemptOk, Handles.Pending;
    var d := Holed(s, tp);
    RemovedShape(s, tp, s.cursors[tp].position);
    PendingIs(s.h, tp);
    HoleOpens(log, acked, tp, s.cursors[tp], s.h.inFlight[tp], s.h.watermarks[tp], s.h.highWater[tp]);
  }

  /** Where an active token points. */
  lemma TokenInRange(log: Log, acked: set<Key>, last: nat, s: Session, t: Token)
    requires SessionOk(log, acked, last, s) && IsActive(s.h, t)
    ensures t.tp in s.cursors && s.cursors[t.tp].hole.None? && !s.cursors[t.tp].lost && KeyOf(t) in log
    ensures s.cursors[t.tp].origin <= t.offset < s.cursors[t.tp].frontier
    ensures 0 < t.attempt <= last
  {
    assert AttemptOk(acked, last, KeyOf(t), t.attempt, s.cursors[t.tp], s.h.Pending(t.tp), s.unsettled);
  }

  lemma LegacyInRange(log: Log, acked: set<Key>, last: nat, s: Session)
    requires SessionOk(log, acked, last, s) && s.h.legacy.Some?
    ensures var r := s.h.legacy.value;
            && r in log && r.tp in s.cursors && s.cursors[r.tp].hole.None? && !s.cursors[r.tp].lost
            && s.cursors[r.tp].origin <= r.offset < s.cursors[r.tp].frontier
  {
  }

  lemma FreshOk(log: Log, acked: set<Key>, last: nat, generation: nat, epoch: nat)
    ensures SessionOk(log, acked, last, Session(Fresh(generation, epoch), map[], {}))
  {
  }

  lemma RetireKeeps(log: Log, acked: set<Key>, last: nat, s: Session)
    requires SessionOk(log, acked, last, s)
    ensures SessionOk(log, acked, last, s.(h := s.h.(retired := true)))
  {
    hide CursorOk, CohortOk, AttemptOk;
    var r := s.(h := s.h.(retired := true));
    assert forall q :: r.h.Pending(q) == s.h.Pending(q);
  }
}
