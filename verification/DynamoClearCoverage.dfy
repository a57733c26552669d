/** What a clear leaves in the table when the service answers honestly and nobody else
    writes: everything outside the prefix, and nothing inside it. */
module DynamoClearCoverage {
  import opened Options
  import opened DynamoClear
  import opened DynamoClearRuns

  type Table = map<Key, RawItem>

  predicate Sound(table: Table) {
    forall k :: k in table ==> table[k].Item? && table[k].pk == k && ItemError(table[k]).None?
  }

  /** Rows of the prefix carry a revision, or the maintenance override is on. */
  predicate Clearable(table: Table, prefix: Option<string>, allowLegacy: bool) {
    forall k :: k in table && InScope(prefix, k) ==> table[k].Item? && (table[k].revision.Missing? ==> allowLegacy)
  }

  predicate NoRepeats(keys: seq<Key>) {
    forall i, j :: 0 <= i < j < |keys| ==> keys[i] != keys[j]
  }

  function Outside(table: Table, prefix: Option<string>): Table {
    map k | k in table && !InScope(prefix, k) :: table[k]
  }

  function Without(table: Table, prefix: Option<string>, keys: seq<Key>): Table {
    map k | k in table && !(k in keys && InScope(prefix, k)) :: table[k]
  }

  // ----- An honest service -----

  /** The rows of a prefix among `keys`, as a filtered scan lists them. */
  function ListOf(table: Table, keys: seq<Key>, prefix: Option<string>): seq<RawItem> {
    if keys == [] then []
    else if keys[0] in table && InScope(prefix, keys[0]) then [table[keys[0]]] + ListOf(table, keys[1..], prefix)
    else ListOf(table, keys[1..], prefix)
  }

  /** Where a scan starts in the service's own order of keys. */
  function Position(order: seq<Key>, start: Option<Key>): (i: nat)
    requires start.Some? ==> start.value in order
    ensures i <= |order|
    ensures start.Some? ==> i > 0 && order[i - 1] == start.value
  {
    if start.None? then 0
    else if order[0] == start.value then 1
    else 1 + Position(order[1..], start)
  }

  /** A page over `order[i..j]`: its rows of the prefix; no cursor only at the end, and a
      cursor is the last key the page covered. */
  predicate PageOver(table: Table, order: seq<Key>, prefix: Option<string>, i: nat, j: nat, reply: ScanReply)
    requires i <= |order|
  {
    && i <= j <= |order|
    && reply.Page?
    && reply.items == ListOf(table, order[i..j], prefix)
    && !reply.cursor.Unreadable?
    && (reply.cursor.Absent? ==> j == |order|)
    && (reply.cursor.At? ==> i < j && reply.cursor.pk == order[j - 1])
  }

  /** The condition of the delete call: the row is there with the revision, or is the
      very row when it has none. */
  predicate Meets(table: Table, item: RawItem) {
    && item.Item? && item.pk in table && table[item.pk].Item?
    && (if item.revision.Missing? then table[item.pk] == item else table[item.pk].revision == item.revision)
  }

  ghost predicate HonestCall(table: Table, order: seq<Key>, prefix: Option<string>, call: Call) {
    match call
    case Scan(start, reply) =>
      && (start.Some? ==> start.value in order)
      && exists j: nat :: PageOver(table, order, prefix, Position(order, start), j, reply)
    case Delete(item, reply) =>
      reply == if Meets(table, item) then Gone(table[item.pk]) else ConditionFailed
  }

  function AfterCall(table: Table, call: Call): Table {
    if call.Delete? && call.item.Item? && call.outcome.Gone? then table - {call.item.pk} else table
  }

  function After(table: Table, calls: seq<Call>): Table {
    if calls == [] then table else After(AfterCall(table, calls[0]), calls[1..])
  }

  /** Every reply is honest for the table at that moment, and only the clear writes. */
  ghost predicate Honest(table: Table, order: seq<Key>, prefix: Option<string>, calls: seq<Call>) {
    calls == [] || (HonestCall(table, order, prefix, calls[0])
                    && Honest(AfterCall(table, calls[0]), order, prefix, calls[1..]))
  }

  lemma {:induction false} HonestSplit(table: Table, order: seq<Key>, prefix: Option<string>, first: seq<Call>,
                                       second: seq<Call>)
    requires Honest(table, order, prefix, first + second)
    ensures Honest(table, order, prefix, first)
    ensures Honest(After(table, first), order, prefix, second)
    ensures After(table, first + second) == After(After(table, first), second)
    decreases first
  {
    if first == [] {
      assert first + second == second;
    } else {
      assert (first + second)[1..] == first[1..] + second;
      HonestSplit(AfterCall(table, first[0]), order, prefix, first[1..], second);
    }
  }

  // ----- One page -----

  lemma {:induction false} ListedItems(table: Table, keys: seq<Key>, prefix: Option<string>)
    requires Sound(table)
    ensures FirstError(ListOf(table, keys, prefix)).None? && AllInScope(prefix, ListOf(table, keys, prefix))
    decreases keys
  {
    if keys != [] {
      ListedItems(table, keys[1..], prefix);
    }
  }

  lemma {:induction false} ListIgnores(table: Table, keys: seq<Key>, prefix: Option<string>, gone: Key)
    requires gone !in keys
    ensures ListOf(table - {gone}, keys, prefix) == ListOf(table, keys, prefix)
    decreases keys
  {
    if keys != [] {
      ListIgnores(table, keys[1..], prefix, gone);
    }
  }

  /** The first delete of a page succeeds and removes its row. */
  lemma FirstDelete(env: Env, deletes: nat, allowLegacy: bool, table: Table, order: seq<Key>, prefix: Option<string>,
                    key: Key, items: seq<RawItem>)
    requires Sound(table) && Clearable(table, prefix, allowLegacy) && key in table && InScope(prefix, key)
    requires items != [] && items[0] == table[key] && FirstError(items).None?
    requires Honest(table, order, prefix, DeleteAll(env, deletes, items, allowLegacy).calls)
    ensures var r := DeleteAll(env, deletes, items, allowLegacy);
            var rest := DeleteAll(env, deletes + 1, items[1..], allowLegacy);
            && Honest(table - {key}, order, prefix, rest.calls) && r.error == rest.error
            && After(table, r.calls) == After(table - {key}, rest.calls)
  {
    hide ValidRevision, PageOver, Position;
    var call := Delete(items[0], env.delete(deletes));
    var r := DeleteAll(env, deletes, items, allowLegacy);
    assert r.calls[0] == call;
    assert HonestCall(table, order, prefix, call);
    assert call.outcome == Gone(table[key]);
    assert ReplyError(items[0], call.outcome).None?;
    assert r.calls[1..] == DeleteAll(env, deletes + 1, items[1..], allowLegacy).calls;
    assert AfterCall(table, call) == table - {key};
  }

  lemma NoDeletes(env: Env, deletes: nat, allowLegacy: bool, table: Table)
    ensures var r := DeleteAll(env, deletes, [], allowLegacy); r.error.None? && After(table, r.calls) == table
  {
  }

  /** Honest deletes of one page all succeed and remove exactly the page's rows. */
  lemma {:induction false} PageCleared(env: Env, deletes: nat, allowLegacy: bool, table: Table, order: seq<Key>,
                                       prefix: Option<string>, keys: seq<Key>)
    requires Sound(table) && Clearable(table, prefix, allowLegacy) && NoRepeats(keys)
    requires FirstError(ListOf(table, keys, prefix)).None?
    requires Honest(table, order, prefix, DeleteAll(env, deletes, ListOf(table, keys, prefix), allowLegacy).calls)
    ensures var r := DeleteAll(env, deletes, ListOf(table, keys, prefix), allowLegacy);
            r.error.None? && After(table, r.calls) == Without(table, prefix, keys)
    decreases keys
  {
    hide Honest, DeleteAll, After;
    if keys != [] {
      var key := keys[0];
      var items := ListOf(table, keys, prefix);
      assert forall k :: k in keys <==> k == key || k in keys[1..];
      if key in table && InScope(prefix, key) {
        assert items[0] == table[key] && items[1..] == ListOf(table, keys[1..], prefix);
        FirstDelete(env, deletes, allowLegacy, table, order, prefix, key, items);
        ListIgnores(table, keys[1..], prefix, key);
        PageCleared(env, deletes + 1, allowLegacy, table - {key}, order, prefix, keys[1..]);
        assert Without(table - {key}, prefix, keys[1..]) == Without(table, prefix, keys);
      } else {
        PageCleared(env, deletes, allowLegacy, table, order, prefix, keys[1..]);
        assert Without(table, prefix, keys[1..]) == Without(table, prefix, keys);
      }
    } else {
      NoDeletes(env, deletes, allowLegacy, table);
      assert Without(table, prefix, keys) == table;
    }
  }

  // ----- The whole clear -----

  lemma {:induction false} PositionAt(order: seq<Key>, j: nat)
    requires 0 < j <= |order| && NoRepeats(order)
    ensures Position(order, Some(order[j - 1])) == j
    decreases order
  {
    if j > 1 {
      assert order[0] != order[j - 1];
      assert order[1..][j - 2] == order[j - 1];
      PositionAt(order[1..], j - 1);
    }
  }

  /** The rows of the prefix that a clear continuing at `i` has still to find. */
  predicate SweptTo(table: Table, order: seq<Key>, prefix: Option<string>, i: nat)
    requires i <= |order|
  {
    && (forall k :: k in table && InScope(prefix, k) ==> k in order[i..])
  }

  lemma SweepsOn(table: Table, order: seq<Key>, prefix: Option<string>, allowLegacy: bool, i: nat, j: nat)
    requires i <= j <= |order| && SweptTo(table, order, prefix, i)
    requires Sound(table) && Clearable(table, prefix, allowLegacy)
    ensures var rest := Without(table, prefix, order[i..j]);
            && Sound(rest) && Clearable(rest, prefix, allowLegacy) && SweptTo(rest, order, prefix, j)
            && Outside(rest, prefix) == Outside(table, prefix)
            && (j == |order| ==> rest == Outside(table, prefix))
  {
    assert order[i..] == order[i..j] + order[j..];
    assert j == |order| ==> order[i..j] == order[i..];
  }

  /** No two keys of the order share a digest. */
  predicate NoCollision(env: Env, order: seq<Key>) {
    forall a, b :: a in order && b in order && env.digest(a) == env.digest(b) ==> a == b
  }

  /** None of the cursors still to come has been seen. */
  predicate Unseen(env: Env, order: seq<Key>, i: nat, seen: set<Digest>)
    requires i <= |order|
  {
    forall k :: i <= k < |order| ==> env.digest(order[k]) !in seen
  }

  /** Coverage and success.  With honest pages, no other writer, and every row of the
      prefix revision-fenced (or the override on), a clear that returns normally leaves
      the table without the prefix's rows and otherwise as it was; and it does return
      normally unless two cursors share a digest. */
  lemma {:induction false} ClearsThePrefix(env: Env, prefix: Option<string>, allowLegacy: bool, scans: nat,
                                           deletes: nat, start: Option<Key>, seen: set<Digest>, table: Table,
                                           order: seq<Key>)
    requires Sound(table) && Clearable(table, prefix, allowLegacy)
    requires NoRepeats(order) && (start.Some? ==> start.value in order)
    requires SweptTo(table, order, prefix, Position(order, start))
    requires Honest(table, order, prefix, Clear(env, prefix, allowLegacy, scans, deletes, start, seen).calls)
    ensures var r := Clear(env, prefix, allowLegacy, scans, deletes, start, seen);
            r.error.None? ==> After(table, r.calls) == Outside(table, prefix)
    ensures var r := Clear(env, prefix, allowLegacy, scans, deletes, start, seen);
            NoCollision(env, order) && Unseen(env, order, Position(order, start), seen) ==> r.error.None?
    decreases DIGESTS - |seen|
  {
    hide Clear, DeleteAll, FirstError, ValidRevision, ListOf, Without, Outside, Position, Sound, Clearable, AllInScope,
        SweptTo, After;
    var r := Clear(env, prefix, allowLegacy, scans, deletes, start, seen);
    var reply := env.scan(scans);
    var scan := Scan(start, reply);
    var i := Position(order, start);
    ScanComesFirst(env, prefix, allowLegacy, scans, deletes, start, seen);
    assert HonestCall(table, order, prefix, scan);
    var j: nat :| PageOver(table, order, prefix, i, j, reply);
    ListedItems(table, order[i..j], prefix);
    assert PageError(reply).None?;
    var next := NextKey(reply);
    if next.Some? {
      PositionAt(order, j);
    }
    if next.Some? && env.digest(next.value) in seen {
      Repeats(env, prefix, allowLegacy, scans, deletes, start, seen);
      assert next.value == order[j - 1];
    } else {
      var page, tail := Round(env, prefix, allowLegacy, scans, deletes, start, seen);
      PageThenTail(table, order, prefix, scan, page.calls, tail);
      PageCleared(env, deletes, allowLegacy, table, order, prefix, order[i..j]);
      SweepsOn(table, order, prefix, allowLegacy, i, j);
      var left := Without(table, prefix, order[i..j]);
      if next.None? {
        AfterNothing(left);
      } else {
        var digest := env.digest(next.value);
        DigestsGrow(seen, digest);
        ClearsThePrefix(env, prefix, allowLegacy, scans + 1, deletes + |page.calls|, next, seen + {digest}, left,
                        order);
        if NoCollision(env, order) && Unseen(env, order, i, seen) {
          StillUnseen(env, order, i, j, seen);
        }
      }
    }
  }

  lemma AfterNothing(table: Table)
    ensures After(table, []) == table
  {
  }

  lemma StillUnseen(env: Env, order: seq<Key>, i: nat, j: nat, seen: set<Digest>)
    requires i < j <= |order| && NoRepeats(order) && NoCollision(env, order) && Unseen(env, order, i, seen)
    ensures Unseen(env, order, j, seen + {env.digest(order[j - 1])})
  {
  }

  lemma ScanComesFirst(env: Env, prefix: Option<string>, allowLegacy: bool, scans: nat, deletes: nat,
                       start: Option<Key>, seen: set<Digest>)
    ensures var calls := Clear(env, prefix, allowLegacy, scans, deletes, start, seen).calls;
            calls != [] && calls[0] == Scan(start, env.scan(scans))
  {
  }

  lemma Repeats(env: Env, prefix: Option<string>, allowLegacy: bool, scans: nat, deletes: nat, start: Option<Key>,
                seen: set<Digest>)
    requires PageError(env.scan(scans)).None? && AllInScope(prefix, env.scan(scans).items)
    requires NextKey(env.scan(scans)).Some? && env.digest(NextKey(env.scan(scans)).value) in seen
    ensures Clear(env, prefix, allowLegacy, scans, deletes, start, seen).error == Some(RepeatedCursor)
  {
  }

  /** One round on a good page: its deletes, and what comes after them. */
  lemma Round(env: Env, prefix: Option<string>, allowLegacy: bool, scans: nat, deletes: nat, start: Option<Key>,
              seen: set<Digest>)
    returns (page: Run, tail: seq<Call>)
    requires PageError(env.scan(scans)).None? && AllInScope(prefix, env.scan(scans).items)
    requires var next := NextKey(env.scan(scans)); next.Some? ==> env.digest(next.value) !in seen
    ensures page == DeleteAll(env, deletes, env.scan(scans).items, allowLegacy)
    ensures var r := Clear(env, prefix, allowLegacy, scans, deletes, start, seen);
            var next := NextKey(env.scan(scans));
            && r.calls == [Scan(start, env.scan(scans))] + page.calls + tail
            && (page.error.Some? || next.None? ==> tail == [] && r.error == page.error)
            && (page.error.None? && next.Some? ==>
                  Run(tail, r.error)
                      == Clear(env, prefix, allowLegacy, scans + 1, deletes + |page.calls|, next,
                               seen + {env.digest(next.value)}))
  {
    hide DeleteAll, FirstError, AllInScope;
    var r := Clear(env, prefix, allowLegacy, scans, deletes, start, seen);
    page := DeleteAll(env, deletes, env.scan(scans).items, allowLegacy);
    tail := r.calls[1 + |page.calls|..];
  }

  lemma PageThenTail(table: Table, order: seq<Key>, prefix: Option<string>, scan: Call, page: seq<Call>,
                     tail: seq<Call>)
    requires scan.Scan? && Honest(table, order, prefix, [scan] + page + tail)
    ensures Honest(table, order, prefix, page)
    ensures Honest(After(table, page), order, prefix, tail)
    ensures After(table, [scan] + page + tail) == After(After(table, page), tail)
  {
    var all := [scan] + page + tail;
    assert all[1..] == page + tail && all[0] == scan;
    HonestSplit(table, order, prefix, page, tail);
  }

  /** `clear_storage` itself, from the start of the table. */
  lemma ClearStorageEmptiesPrefix(env: Env, prefix: Option<string>, allowLegacy: bool, table: Table, order: seq<Key>)
    requires Sound(table) && Clearable(table, prefix, allowLegacy)
    requires NoRepeats(order) && forall k :: k in table ==> k in order
    requires Honest(table, order, prefix, Clear(env, prefix, allowLegacy, 0, 0, None, {}).calls)
    ensures var r := Clear(env, prefix, allowLegacy, 0, 0, None, {});
            && (r.error.None? ==> After(table, r.calls) == Outside(table, prefix))
            && (NoCollision(env, order) ==> r.error.None?)
  {
    assert order[0..] == order;
    ClearsThePrefix(env, prefix, allowLegacy, 0, 0, None, {}, table, order);
  }
}
