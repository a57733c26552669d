/** Writers, clears and lazy expiry racing on one DynamoDB table
    (src/scrapy_extension/backends/dynamodb.py).  The clock is one monotone real; a store
    draws its revision and reads the clock, and its put lands later. */
module DynamoTable {
  import opened Options
  import opened DynamoClear

  /** One write that reached the table.  `stamp` holds the clock reading and the lifetime
      of a store with a lifetime; writes of other programs carry no revision. */
  datatype Write = Write(key: Key, revision: Option<string>, expireAt: Option<real>, stamp: Option<(real, nat)>,
                         landedAt: real)

  /** A row a clear of `prefix` has seen in a scan: the write it was. */
  datatype Sighting = Sighting(prefix: Option<string>, key: Key, serial: nat)

  /** A read of a key, and once it has found the row expired the clock then and how many
      writes had landed by then. */
  datatype Read = Read(key: Key, serial: nat, judged: Option<(real, nat)>)

  datatype Deletion =
    | ByClear(seen: Sighting, removed: nat)
    | ByReap(read: Read, removed: nat, at: real)

  /** `table` maps a key to the index in `history` of the write it holds. */
  datatype State = State(
    clock: real,
    table: map<Key, nat>,
    history: seq<Write>,
    drawn: set<string>,
    stores: map<int, Write>,
    sightings: set<Sighting>,
    readers: map<int, Read>,
    deletions: seq<Deletion>)

  datatype Event =
    | Tick(amount: real)
    | BeginStore(store: int, key: Key, ttl: Option<nat>, revision: string)
    | PutLands(store: int)
    | PutFails(store: int)
    | OtherWrites(key: Key, expireAt: Option<real>)
    | OtherDeletes(key: Key)
    | ScanSees(prefix: Option<string>, key: Key)
    | ClearDeletes(seen: Sighting)
    | Reads(read: int, key: Key)
    | Judges(read: int)
    | Reaps(read: int)

  function Ceil(x: real): int {
    -(-x).Floor
  }

  /** The expiry `store` writes. */
  function ExpiryOf(now: real, ttl: Option<nat>): Option<real> {
    if ttl.None? then None else Some(Ceil(now + ttl.value as real) as real)
  }

  predicate Expired(expireAt: Option<real>, now: real) {
    expireAt.Some? && expireAt.value <= now
  }

  predicate Enabled(s: State, e: Event) {
    match e
    case Tick(amount) => amount >= 0.0
    case BeginStore(store, _, ttl, revision) =>
        store !in s.stores && revision !in s.drawn && (ttl.Some? ==> ttl.value > 0)
    case PutLands(store) => store in s.stores
    case PutFails(store) => store in s.stores
    case OtherWrites(_, _) => true
    case OtherDeletes(_) => true
    case ScanSees(prefix, key) => key in s.table && InScope(prefix, key)
    case ClearDeletes(seen) => seen in s.sightings && seen.serial < |s.history| && s.history[seen.serial].revision.Some?
    case Reads(read, key) => key in s.table && read !in s.readers
    case Judges(read) => read in s.readers && s.readers[read].judged.None? && s.readers[read].serial < |s.history|
    case Reaps(read) => read in s.readers && s.readers[read].judged.Some? && s.readers[read].serial < |s.history|
  }

  predicate Sane(s: State) {
    forall k :: k in s.table ==> s.table[k] < |s.history|
  }

  function Land(s: State, w: Write): State {
    s.(history := s.history + [w], table := s.table[w.key := |s.history|])
  }

  /** The condition of a clear's delete: the row present carries the revision seen. */
  predicate RevisionHolds(s: State, seen: Sighting)
    requires Sane(s) && seen.serial < |s.history|
  {
    seen.key in s.table && s.history[s.table[seen.key]].revision == s.history[seen.serial].revision
  }

  /** The condition of a lazy cleanup: the row present carries the expiry read. */
  predicate ExpiryHolds(s: State, r: Read)
    requires Sane(s) && r.serial < |s.history|
  {
    r.key in s.table && s.history[s.table[r.key]].expireAt == s.history[r.serial].expireAt
  }

  function Step(s: State, e: Event): State
    requires Sane(s) && Enabled(s, e)
  {
    match e
    case Tick(amount) => s.(clock := s.clock + amount)
    case BeginStore(store, key, ttl, revision) =>
      var stamp := if ttl.None? then None else Some((s.clock, ttl.value));
      var w := Write(key, Some(revision), ExpiryOf(s.clock, ttl), stamp, s.clock);
      s.(stores := s.stores[store := w], drawn := s.drawn + {revision})
    case PutLands(store) => Land(s.(stores := s.stores - {store}), s.stores[store].(landedAt := s.clock))
    case PutFails(store) => s.(stores := s.stores - {store})
    case OtherWrites(key, expireAt) => Land(s, Write(key, None, expireAt, None, s.clock))
    case OtherDeletes(key) => s.(table := s.table - {key})
    case ScanSees(prefix, key) => s.(sightings := s.sightings + {Sighting(prefix, key, s.table[key])})
    case ClearDeletes(seen) =>
      if RevisionHolds(s, seen) then
        s.(table := s.table - {seen.key}, deletions := s.deletions + [ByClear(seen, s.table[seen.key])])
      else s
    case Reads(read, key) => s.(readers := s.readers[read := Read(key, s.table[key], None)])
    case Judges(read) =>
      var r := s.readers[read];
      if Expired(s.history[r.serial].expireAt, s.clock)
      then s.(readers := s.readers[read := r.(judged := Some((s.clock, |s.history|)))])
      else s.(readers := s.readers - {read})
    case Reaps(read) =>
      var r := s.readers[read];
      var done := s.(readers := s.readers - {read});
      if ExpiryHolds(s, r)
      then done.(table := s.table - {r.key}, deletions := s.deletions + [ByReap(r, s.table[r.key], s.clock)])
      else done
  }

  // ----- Invariants -----

  predicate KeysAgree(s: State) {
    && Sane(s)
    && (forall k :: k in s.table ==> s.history[s.table[k]].key == k)
    && (forall o :: o in s.sightings ==>
         o.serial < |s.history| && s.history[o.serial].key == o.key && InScope(o.prefix, o.key))
    && (forall i :: i in s.readers ==>
         s.readers[i].serial < |s.history| && s.history[s.readers[i].serial].key == s.readers[i].key)
  }

  /** A revision names one write, landed or on its way. */
  predicate RevisionsUnique(s: State) {
    && (forall i, j :: 0 <= i < j < |s.history| && s.history[i].revision.Some? ==>
         s.history[i].revision != s.history[j].revision)
    && (forall i :: 0 <= i < |s.history| && s.history[i].revision.Some? ==> s.history[i].revision.value in s.drawn)
    && (forall i :: i in s.stores ==> s.stores[i].revision.Some? && s.stores[i].revision.value in s.drawn)
    && (forall i, h :: i in s.stores && 0 <= h < |s.history| ==> s.stores[i].revision != s.history[h].revision)
    && (forall i, j :: i in s.stores && j in s.stores && i != j ==> s.stores[i].revision != s.stores[j].revision)
  }

  /** A store's expiry is the rounded-up clock it read plus its lifetime. */
  predicate Stamped(w: Write, now: real) {
    && w.landedAt <= now
    && (w.stamp.Some? ==>
          && w.stamp.value.0 <= w.landedAt && w.stamp.value.1 > 0
          && w.expireAt == ExpiryOf(w.stamp.value.0, Some(w.stamp.value.1)))
    && (w.revision.Some? && w.stamp.None? ==> w.expireAt.None?)
  }

  predicate ClockAgrees(s: State) {
    && (forall i :: 0 <= i < |s.history| ==> Stamped(s.history[i], s.clock))
    && (forall i :: i in s.stores ==> Stamped(s.stores[i], s.clock))
  }

  /** A pending cleanup saw an expired row, and what landed since landed later. */
  predicate JudgedWell(history: seq<Write>, r: Read, now: real) {
    r.judged.Some? ==>
      && r.serial < |history| && r.judged.value.1 <= |history|
      && Expired(history[r.serial].expireAt, r.judged.value.0)
      && r.judged.value.0 <= now
      && (forall i :: r.judged.value.1 <= i < |history| ==> r.judged.value.0 <= history[i].landedAt)
  }

  predicate JudgementsAgree(s: State) {
    forall i :: i in s.readers ==> JudgedWell(s.history, s.readers[i], s.clock)
  }

  /** What a recorded deletion may be. */
  predicate Faithful(history: seq<Write>, d: Deletion) {
    match d
    case ByClear(seen, removed) =>
      && removed == seen.serial && removed < |history|
      && history[removed].key == seen.key && InScope(seen.prefix, seen.key)
    case ByReap(read, removed, at) =>
      && removed < |history| && history[removed].key == read.key
      && read.judged.Some? && read.judged.value.0 <= at
      && Expired(history[removed].expireAt, read.judged.value.0)
      && (history[removed].stamp.Some? ==>
           history[removed].stamp.value.0 + history[removed].stamp.value.1 as real <= read.judged.value.0)
      && (removed >= read.judged.value.1 ==> Expired(history[removed].expireAt, history[removed].landedAt))
  }

  predicate DeletionsFaithful(s: State) {
    forall i :: 0 <= i < |s.deletions| ==> Faithful(s.history, s.deletions[i])
  }

  predicate Ok(s: State) {
    KeysAgree(s) && RevisionsUnique(s) && ClockAgrees(s) && JudgementsAgree(s) && DeletionsFaithful(s)
  }

  // ----- Each step keeps them -----

  lemma StepKeys(s: State, e: Event)
    requires Ok(s) && Enabled(s, e)
    ensures KeysAgree(Step(s, e))
  {
    hide RevisionsUnique, ClockAgrees, JudgementsAgree, DeletionsFaithful, ExpiryOf, Expired;
  }

  lemma StepRevisions(s: State, e: Event)
    requires Ok(s) && Enabled(s, e)
    ensures RevisionsUnique(Step(s, e))
  {
    hide ClockAgrees, JudgementsAgree, DeletionsFaithful, ExpiryOf, Expired;
  }

  lemma StepClock(s: State, e: Event)
    requires Ok(s) && Enabled(s, e)
    ensures ClockAgrees(Step(s, e))
  {
    hide RevisionsUnique, JudgementsAgree, DeletionsFaithful, Expired, Ceil;
  }

  lemma StepJudgements(s: State, e: Event)
    requires Ok(s) && Enabled(s, e)
    ensures JudgementsAgree(Step(s, e))
  {
    hide RevisionsUnique, DeletionsFaithful, Expired, ExpiryOf;
  }

  lemma CeilBounds(x: real)
    ensures x <= Ceil(x) as real < x + 1.0
  {
  }

  /** A delete under a clear's condition removes the very write the scan saw. */
  lemma ClearRemovesWhatItSaw(s: State, seen: Sighting)
    requires Ok(s) && Enabled(s, ClearDeletes(seen)) && RevisionHolds(s, seen)
    ensures s.table[seen.key] == seen.serial
  {
  }

  lemma ClearIsFaithful(s: State, seen: Sighting)
    requires Ok(s) && Enabled(s, ClearDeletes(seen)) && RevisionHolds(s, seen)
    ensures Faithful(s.history, ByClear(seen, s.table[seen.key]))
  {
    ClearRemovesWhatItSaw(s, seen);
  }

  lemma ReapFaithful(s: State, read: int)
    requires Ok(s) && Enabled(s, Reaps(read)) && ExpiryHolds(s, s.readers[read])
    ensures Faithful(s.history, ByReap(s.readers[read], s.table[s.readers[read].key], s.clock))
  {
    hide RevisionsUnique, DeletionsFaithful, Ceil;
    var r := s.readers[read];
    assert JudgedWell(s.history, r, s.clock);
    var w := s.history[s.table[r.key]];
    assert Stamped(w, s.clock);
    if w.stamp.Some? {
      CeilBounds(w.stamp.value.0 + w.stamp.value.1 as real);
    }
  }

  lemma FaithfulGrows(history: seq<Write>, w: Write, d: Deletion)
    requires Faithful(history, d)
    ensures Faithful(history + [w], d)
  {
  }

  lemma StepDeletions(s: State, e: Event)
    requires Ok(s) && Enabled(s, e)
    ensures DeletionsFaithful(Step(s, e))
  {
    hide RevisionsUnique, ClockAgrees, JudgementsAgree, ExpiryOf, Expired, Faithful;
    var t := Step(s, e);
    match e
    case ClearDeletes(seen) =>
      if RevisionHolds(s, seen) {
        ClearIsFaithful(s, seen);
      }
    case Reaps(read) =>
      if ExpiryHolds(s, s.readers[read]) { ReapFaithful(s, read); }
    case PutLands(store) =>
      forall i | 0 <= i < |t.deletions| ensures Faithful(t.history, t.deletions[i]) {
        FaithfulGrows(s.history, t.history[|s.history|], s.deletions[i]);
      }
    case OtherWrites(_, _) =>
      forall i | 0 <= i < |t.deletions| ensures Faithful(t.history, t.deletions[i]) {
        FaithfulGrows(s.history, t.history[|s.history|], s.deletions[i]);
      }
    case _ =>
  }

  lemma StepKeeps(s: State, e: Event)
    requires Ok(s) && Enabled(s, e)
    ensures Ok(Step(s, e))
  {
    StepKeys(s, e);
    StepRevisions(s, e);
    StepClock(s, e);
    StepJudgements(s, e);
    StepDeletions(s, e);
  }
}
