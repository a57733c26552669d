/** One caller of the DynamoDB backend at a time: `store`, `retrieve`, `exists`, `ttl`
    and the lazy cleanup they share (src/scrapy_extension/backends/dynamodb.py). */
module DynamoBackend {
  import opened Options
  import opened DynamoClear
  import T = DynamoTable

  datatype Expiry = Forever | Until(at: real) | Unreadable

  /** A row; `value` is None when the stored attribute is not binary. */
  datatype Row = Row(value: Option<seq<nat>>, revision: Option<string>, expiry: Expiry)

  datatype Answer<+V> = Returns(value: V) | StorageError

  type Rows = map<Key, Row>

  predicate Dead(expiry: Expiry, now: real) {
    expiry.Until? && expiry.at <= now
  }

  /** The table after a reader at `now` has looked at the key; `works` says whether the
      cleanup delete, if there is one, gets through. */
  function Reaped(rows: Rows, key: Key, now: real, works: bool): Rows {
    if works && key in rows && Dead(rows[key].expiry, now) then rows - {key} else rows
  }

  function Retrieved(rows: Rows, key: Key, now: real): Answer<Option<seq<nat>>> {
    if key !in rows then Returns(None)
    else if rows[key].expiry.Unreadable? then StorageError
    else if Dead(rows[key].expiry, now) then Returns(None)
    else if rows[key].value.None? then StorageError
    else Returns(rows[key].value)
  }

  function Existing(rows: Rows, key: Key, now: real): Answer<bool> {
    if key !in rows then Returns(false)
    else if rows[key].expiry.Unreadable? then StorageError
    else Returns(!Dead(rows[key].expiry, now))
  }

  /** Seconds left, rounded toward zero; the clock is read a second time for them. */
  function Remaining(rows: Rows, key: Key, now: real, later: real): Answer<Option<nat>> {
    if key !in rows then Returns(None)
    else if rows[key].expiry.Unreadable? then StorageError
    else if rows[key].expiry.Forever? || Dead(rows[key].expiry, now) then Returns(None)
    else if rows[key].expiry.at <= later then Returns(Some(0))
    else Returns(Some((rows[key].expiry.at - later).Floor))
  }

  class Backend {
    var rows: Rows

    constructor ()
      ensures rows == map[]
    {
      rows := map[];
    }

    /** False stands for the ValueError on a lifetime that is not positive. */
    method Store(key: Key, data: seq<nat>, ttl: Option<int>, revision: string, now: real) returns (stored: bool)
      modifies this
      ensures stored <==> (ttl.Some? ==> ttl.value > 0)
      ensures !stored ==> rows == old(rows)
      ensures stored ==>
        && rows.Keys == old(rows).Keys + {key}
        && (forall k :: k in old(rows) && k != key ==> rows[k] == old(rows)[k])
        && rows[key].value == Some(data) && rows[key].revision == Some(revision)
        && (ttl.None? ==> rows[key].expiry == Forever)
        && (ttl.Some? ==>
              && rows[key].expiry.Until?
              && rows[key].expiry.at == rows[key].expiry.at.Floor as real
              && now + ttl.value as real <= rows[key].expiry.at < now + ttl.value as real + 1.0)
    {
      if ttl.Some? && ttl.value <= 0 { return false; }
      var expiry := Forever;
      if ttl.Some? {
        expiry := Until(T.Ceil(now + ttl.value as real) as real);
      }
      rows := rows[key := Row(Some(data), Some(revision), expiry)];
      stored := true;
    }

    /** `_lazy_reap_if_expired`: a delete conditional on the expiry that was read, whose
        failure is swallowed. */
    method LazyReap(key: Key, expiry: Expiry, now: real, works: bool) returns (dead: bool)
      requires !expiry.Unreadable?
      modifies this
      ensures dead == Dead(expiry, now)
      ensures rows == if dead && works && key in old(rows) && old(rows)[key].expiry == expiry then old(rows) - {key}
              else old(rows)
    {
      if expiry.Forever? || expiry.at > now { return false; }
      if works && key in rows && rows[key].expiry == expiry {
        rows := rows - {key};
      }
      dead := true;
    }

    method Retrieve(key: Key, now: real, works: bool) returns (answer: Answer<Option<seq<nat>>>)
      modifies this
      ensures answer == Retrieved(old(rows), key, now)
      ensures rows == Reaped(old(rows), key, now, works)
    {
      if key !in rows { return Returns(None); }
      var item := rows[key];
      if item.expiry.Unreadable? { return StorageError; }
      var dead := LazyReap(key, item.expiry, now, works);
      if dead { return Returns(None); }
      if item.value.None? { return StorageError; }
      answer := Returns(item.value);
    }

    method Exists(key: Key, now: real, works: bool) returns (answer: Answer<bool>)
      modifies this
      ensures answer == Existing(old(rows), key, now)
      ensures rows == Reaped(old(rows), key, now, works)
    {
      if key !in rows { return Returns(false); }
      var item := rows[key];
      if item.expiry.Unreadable? { return StorageError; }
      var dead := LazyReap(key, item.expiry, now, works);
      answer := Returns(!dead);
    }

    method TimeToLive(key: Key, now: real, later: real, works: bool) returns (answer: Answer<Option<nat>>)
      requires now <= later
      modifies this
      ensures answer == Remaining(old(rows), key, now, later)
      ensures rows == Reaped(old(rows), key, now, works)
    {
      if key !in rows { return Returns(None); }
      var item := rows[key];
      if item.expiry.Unreadable? { return StorageError; }
      if item.expiry.Forever? { return Returns(None); }
      var dead := LazyReap(key, item.expiry, now, works);
      if dead { return Returns(None); }
      var left := item.expiry.at - later;
      answer := Returns(Some(if left <= 0.0 then 0 else left.Floor));
    }
  }

  /** The table after a run of reads, each with its key, its clock, and the fate of its
      cleanup. */
  function Cleaned(rows: Rows, lookups: seq<(Key, real, bool)>): Rows {
    if lookups == [] then rows else Cleaned(Reaped(rows, lookups[0].0, lookups[0].1, lookups[0].2), lookups[1..])
  }

  /** Lazy cleanup is invisible, whether it gets through or not: after any reads, the
      answers about any key are those of the table nobody cleaned. */
  lemma {:induction false} CleanupInvisible(rows: Rows, lookups: seq<(Key, real, bool)>, key: Key, now: real,
                                            later: real)
    requires now <= later && forall i :: 0 <= i < |lookups| ==> lookups[i].1 <= now
    ensures Retrieved(Cleaned(rows, lookups), key, now) == Retrieved(rows, key, now)
    ensures Existing(Cleaned(rows, lookups), key, now) == Existing(rows, key, now)
    ensures Remaining(Cleaned(rows, lookups), key, now, later) == Remaining(rows, key, now, later)
    decreases lookups
  {
    if lookups != [] {
      CleanupInvisible(Reaped(rows, lookups[0].0, lookups[0].1, lookups[0].2), lookups[1..], key, now, later);
    }
  }

  /** The three reads against each other.  They fail on an expiry that cannot be read; a
      lookup that finds the row also fails on a value that is not binary.  A row is there for
      the one exactly when it is for the others, and what is left of it is rounded down. */
  lemma ReadsExactly(rows: Rows, key: Key, now: real, later: real)
    requires now <= later
    ensures Existing(rows, key, now) == Returns(true) <==>
              key in rows && (rows[key].expiry == Forever || (rows[key].expiry.Until? && now < rows[key].expiry.at))
    ensures Existing(rows, key, now) == StorageError <==> key in rows && rows[key].expiry.Unreadable?
    ensures Remaining(rows, key, now, later) == StorageError <==> Existing(rows, key, now) == StorageError
    ensures Retrieved(rows, key, now) == Returns(None) <==> Existing(rows, key, now) == Returns(false)
    ensures forall v :: Retrieved(rows, key, now) == Returns(Some(v)) <==>
              Existing(rows, key, now) == Returns(true) && rows[key].value == Some(v)
    ensures Remaining(rows, key, now, later).Returns? && Remaining(rows, key, now, later).value.Some? <==>
              Existing(rows, key, now) == Returns(true) && rows[key].expiry.Until?
    ensures Remaining(rows, key, now, later).Returns? && Remaining(rows, key, now, later).value.Some? ==>
              var n, left := Remaining(rows, key, now, later).value.value, rows[key].expiry.at - later;
              if left <= 0.0 then n == 0 else n as real <= left < n as real + 1.0
  {
  }

  /** The end of a lifetime: the first full second that is not before it. */
  function End(now: real, ttl: int): real {
    -(-(now + ttl as real)).Floor as real
  }

  /** What is stored is served for its whole lifetime and for less than one second more, and
      for ever without a lifetime.  The read that comes too late takes the row away, if its
      cleanup works. */
  method StoreThenRetrieve(b: Backend, key: Key, data: seq<nat>, ttl: Option<int>, revision: string, now: real,
                           later: real, works: bool)
    returns (answer: Answer<Option<seq<nat>>>)
    requires (ttl.Some? ==> ttl.value > 0) && now <= later
    modifies b
    ensures ttl.None? ==> answer == Returns(Some(data))
    ensures ttl.Some? ==> answer == if later < End(now, ttl.value) then Returns(Some(data)) else Returns(None)
    ensures ttl.Some? ==> now + ttl.value as real <= End(now, ttl.value) < now + ttl.value as real + 1.0
    ensures key in b.rows <==> answer != Returns(None) || !works
    ensures forall k :: k != key ==>
              (k in b.rows <==> k in old(b.rows)) && (k in b.rows ==> b.rows[k] == old(b.rows)[k])
  {
    var stored := b.Store(key, data, ttl, revision, now);
    if ttl.Some? { OneEnd(b.rows[key].expiry.at, now, ttl.value); }
    answer := b.Retrieve(key, later, works);
  }

  /** And it exists exactly as long. */
  method StoreThenExists(b: Backend, key: Key, data: seq<nat>, ttl: Option<int>, revision: string, now: real,
                         later: real, works: bool)
    returns (answer: Answer<bool>)
    requires (ttl.Some? ==> ttl.value > 0) && now <= later
    modifies b
    ensures answer == Returns(ttl.None? || later < End(now, ttl.value))
    ensures key in b.rows <==> answer == Returns(true) || !works
  {
    var stored := b.Store(key, data, ttl, revision, now);
    if ttl.Some? { OneEnd(b.rows[key].expiry.at, now, ttl.value); }
    answer := b.Exists(key, later, works);
  }

  /** And that long has it left. */
  method StoreThenTimeToLive(b: Backend, key: Key, data: seq<nat>, ttl: Option<int>, revision: string, now: real,
                             later: real, latest: real, works: bool)
    returns (answer: Answer<Option<nat>>)
    requires (ttl.Some? ==> ttl.value > 0) && now <= later <= latest
    modifies b
    ensures answer.Returns? && (answer.value.Some? <==> ttl.Some? && later < End(now, ttl.value))
    ensures answer.value.Some? ==>
              var left := End(now, ttl.value) - latest;
              if left <= 0.0 then answer.value == Some(0)
              else answer.value.value as real <= left < answer.value.value as real + 1.0
  {
    var stored := b.Store(key, data, ttl, revision, now);
    if ttl.Some? { OneEnd(b.rows[key].expiry.at, now, ttl.value); }
    answer := b.TimeToLive(key, later, latest, works);
  }

  /** Only one full second starts within one second. */
  lemma OneEnd(at: real, now: real, ttl: int)
    requires at == at.Floor as real && now + ttl as real <= at < now + ttl as real + 1.0
    ensures at == End(now, ttl)
  {
    FloorIs(-(now + ttl as real), -at.Floor);
  }

  /** The backend judges and writes an expiry as the table of concurrent callers does. */
  lemma SameExpiry(at: real, now: real, ttl: nat)
    ensures T.Expired(Some(at), now) <==> at <= now
    ensures Dead(Until(at), now) <==> T.Expired(Some(at), now)
    ensures T.ExpiryOf(now, Some(ttl)) == Some(End(now, ttl)) && T.ExpiryOf(now, None) == None
  {
  }

  lemma FloorIs(x: real, n: int)
    requires n as real <= x < n as real + 1.0
    ensures x.Floor == n
  {
  }
}
