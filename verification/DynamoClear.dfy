/** `clear_storage` of the DynamoDB backend (src/scrapy_extension/backends/dynamodb.py):
    the paginated clear, for any sequence of replies of the client library, and what it
    leaves behind when the service is honest. */
module DynamoClear {
  import opened Options

  type Key = string

  /** The revision attribute of a returned item. */
  datatype RawRevision = Missing | NotText | Text(s: string)

  /** An item as the client library returns it; `body` stands for every attribute other
      than the key and the revision. */
  datatype RawItem = NotAnItem | Item(pk: Key, revision: RawRevision, body: string)

  datatype RawCursor = Absent | Unreadable | At(pk: Key)

  datatype ScanReply = ScanRaised | NotAPage | Page(items: seq<RawItem>, cursor: RawCursor)

  datatype DeleteReply = DeleteRaised | ConditionFailed | NotAttributes | Gone(was: RawItem)

  datatype Error =
    | ClientFailed
    | Malformed
    | MalformedRevision
    | OutOfScope
    | RepeatedCursor
    | UnfencedLegacy
    | ConcurrentWrite
    | MalformedDelete

  datatype Call = Scan(start: Option<Key>, page: ScanReply) | Delete(item: RawItem, outcome: DeleteReply)

  datatype Run = Run(calls: seq<Call>, error: Option<Error>)

  /** How many SHA-256 digests there are. */
  const DIGESTS: nat := 0x1_00000000_00000000_00000000_00000000_00000000_00000000_00000000_00000000

  type Digest = x: nat | x < DIGESTS

  /** The replies to the successive scan and delete calls, and the digest of a key. */
  datatype Env = Env(scan: nat -> ScanReply, delete: nat -> DeleteReply, digest: Key -> Digest)

  predicate IsHex(c: char) {
    '0' <= c <= '9' || 'a' <= c <= 'f'
  }

  /** `_is_valid_item_revision`. */
  predicate ValidRevision(s: string) {
    |s| == 32 && forall i :: 0 <= i < |s| ==> IsHex(s[i])
  }

  predicate InScope(prefix: Option<string>, pk: Key) {
    prefix.None? || prefix.value <= pk
  }

  // ----- One scan page -----

  function ItemError(item: RawItem): Option<Error> {
    match item
    case NotAnItem => Some(Malformed)
    case Item(_, Missing, _) => None
    case Item(_, NotText, _) => Some(MalformedRevision)
    case Item(_, Text(s), _) => if ValidRevision(s) then None else Some(MalformedRevision)
  }

  function FirstError(items: seq<RawItem>): Option<Error> {
    if items == [] then None
    else if ItemError(items[0]).Some? then ItemError(items[0])
    else FirstError(items[1..])
  }

  function PageError(reply: ScanReply): Option<Error> {
    match reply
    case ScanRaised => Some(ClientFailed)
    case NotAPage => Some(Malformed)
    case Page(items, cursor) =>
      if FirstError(items).Some? then FirstError(items)
      else if cursor.Unreadable? then Some(Malformed)
      else None
  }

  function NextKey(reply: ScanReply): Option<Key>
    requires PageError(reply).None?
  {
    if reply.cursor.At? then Some(reply.cursor.pk) else None
  }

  lemma {:induction false} FirstErrorNone(items: seq<RawItem>)
    ensures FirstError(items).None? <==> forall i :: 0 <= i < |items| ==> ItemError(items[i]).None?
  {
    if items != [] {
      FirstErrorNone(items[1..]);
      assert forall i :: 0 < i < |items| ==> items[i] == items[1..][i - 1];
    }
  }

  lemma {:induction false} FirstErrorAt(items: seq<RawItem>, i: nat)
    requires i < |items| && ItemError(items[i]).Some?
    requires forall j :: 0 <= j < i ==> ItemError(items[j]).None?
    ensures FirstError(items) == ItemError(items[i])
  {
    if i > 0 {
      FirstErrorAt(items[1..], i - 1);
    }
  }

  /** `_validated_scan_page`: the readable items in order with the next cursor, or the
      error of the first bad item. */
  method ValidatedScanPage(reply: ScanReply) returns (items: seq<RawItem>, next: Option<Key>, error: Option<Error>)
    ensures error == PageError(reply)
    ensures error.None? ==> items == reply.items && next == NextKey(reply)
  {
    items, next, error := [], None, None;
    if reply.ScanRaised? { return items, next, Some(ClientFailed); }
    if reply.NotAPage? { return items, next, Some(Malformed); }
    for i := 0 to |reply.items|
      invariant items == reply.items[..i] && error.None? && next.None?
      invariant forall j :: 0 <= j < i ==> ItemError(reply.items[j]).None?
    {
      var item := reply.items[i];
      if ItemError(item).Some? {
        FirstErrorAt(reply.items, i);
        return items, next, ItemError(item);
      }
      items := items + [item];
    }
    FirstErrorNone(reply.items);
    assert items == reply.items;
    match reply.cursor
    case Absent =>
    case Unreadable => error := Some(Malformed);
    case At(pk) => next := Some(pk);
  }

  // ----- One conditional delete -----

  /** What `_delete_clear_item` refuses before it calls the service. */
  function Refused(item: RawItem, allowLegacy: bool): Option<Error>
    requires ItemError(item).None?
  {
    if item.revision.Missing? && !allowLegacy then Some(UnfencedLegacy) else None
  }

  /** Judging the reply, with `_validate_clear_delete_response`. */
  function ReplyError(item: RawItem, reply: DeleteReply): Option<Error>
    requires ItemError(item).None?
  {
    match reply
    case DeleteRaised => Some(ClientFailed)
    case ConditionFailed => Some(ConcurrentWrite)
    case NotAttributes => Some(MalformedDelete)
    case Gone(was) =>
      if was.NotAnItem? || was.pk != item.pk then Some(MalformedDelete)
      else if item.revision.Missing? then (if was != item then Some(MalformedDelete) else None)
      else if was.revision != item.revision then Some(MalformedDelete)
      else None
  }

  /** The calls made so far, then a run. */
  function Then(calls: seq<Call>, r: Run): Run {
    Run(calls + r.calls, r.error)
  }

  lemma ThenThen(first: seq<Call>, second: seq<Call>, r: Run)
    ensures Then(first, Then(second, r)) == Then(first + second, r)
  {
    assert first + (second + r.calls) == first + second + r.calls;
  }

  function DeleteAll(env: Env, deletes: nat, items: seq<RawItem>, allowLegacy: bool): (r: Run)
    requires FirstError(items).None?
    decreases items
  {
    if items == [] then Run([], None)
    else if Refused(items[0], allowLegacy).Some? then Run([], Refused(items[0], allowLegacy))
    else
      var call := Delete(items[0], env.delete(deletes));
      if ReplyError(items[0], call.outcome).Some? then Run([call], ReplyError(items[0], call.outcome))
      else
        Then([call], DeleteAll(env, deletes + 1, items[1..], allowLegacy))
  }

  // ----- The whole clear -----

  predicate AllInScope(prefix: Option<string>, items: seq<RawItem>) {
    forall i :: 0 <= i < |items| ==> items[i].Item? && InScope(prefix, items[i].pk)
  }

  /** The clear from the scan that starts after `start`, with the digests of the cursors
      seen so far.  Each continued page adds a digest, so it ends. */
  function Clear(env: Env, prefix: Option<string>, allowLegacy: bool, scans: nat, deletes: nat, start: Option<Key>,
                 seen: set<Digest>): (r: Run)
    decreases DIGESTS - |seen|
  {
    var reply := env.scan(scans);
    var scan := Scan(start, reply);
    if PageError(reply).Some? then Run([scan], PageError(reply))
    else if !AllInScope(prefix, reply.items) then Run([scan], Some(OutOfScope))
    else
      var next := NextKey(reply);
      if next.Some? && env.digest(next.value) in seen then Run([scan], Some(RepeatedCursor))
      else
        var page := DeleteAll(env, deletes, reply.items, allowLegacy);
        if page.error.Some? || next.None? then Then([scan], page)
        else
          FewDigests(seen + {env.digest(next.value)});
          var rest := Clear(env, prefix, allowLegacy, scans + 1, deletes + |page.calls|, next,
                            seen + {env.digest(next.value)});
          Then([scan] + page.calls, rest)
  }

  lemma {:induction false} SmallSet(s: set<int>, n: nat)
    requires forall x :: x in s ==> 0 <= x < n
    ensures |s| <= n
  {
    if n == 0 {
      assert forall x :: x !in s;
    } else {
      SmallSet(s - {n - 1}, n - 1);
      assert s <= s - {n - 1} + {n - 1};
    }
  }

  lemma FewDigests(seen: set<Digest>)
    ensures |seen| <= DIGESTS
  {
    var s := set x: Digest | x in seen :: x as int;
    assert forall x :: x in seen <==> x in s;
    SameSize(seen, s);
    SmallSet(s, DIGESTS);
  }

  lemma {:induction false} SameSize(a: set<Digest>, b: set<int>)
    requires forall x: Digest :: x in a ==> x in b
    ensures |a| <= |b|
  {
    if a != {} {
      var x :| x in a;
      SameSize(a - {x}, b - {x});
    }
  }

  /** One step of the loop over a page, after the calls made so far. */
  lemma PageStep(env: Env, deletes: nat, items: seq<RawItem>, allowLegacy: bool, i: nat, calls: seq<Call>)
    requires i <= |items| && FirstError(items[i..]).None?
    ensures var rest := Then(calls, DeleteAll(env, deletes + i, items[i..], allowLegacy));
            if i == |items| then rest == Run(calls, None)
            else
              && ItemError(items[i]).None? && FirstError(items[i + 1..]).None?
              && var call := Delete(items[i], env.delete(deletes + i));
                 if Refused(items[i], allowLegacy).Some? then rest == Run(calls, Refused(items[i], allowLegacy))
                 else if ReplyError(items[i], call.outcome).Some?
                     then rest == Run(calls + [call], ReplyError(items[i], call.outcome))
                 else rest == Then(calls + [call], DeleteAll(env, deletes + i + 1, items[i + 1..], allowLegacy))
  {
    FirstErrorTail(items, i);
    hide Refused, ReplyError, FirstError;
    if i < |items| {
      assert items[i..][0] == items[i] && items[i..][1..] == items[i + 1..];
      ThenThen(calls, [Delete(items[i], env.delete(deletes + i))],
               DeleteAll(env, deletes + i + 1, items[i + 1..], allowLegacy));
    }
  }

  /** The inner loop of `clear_storage` over one page. */
  method DeletePage(env: Env, deletes: nat, items: seq<RawItem>, allowLegacy: bool)
    returns (calls: seq<Call>, error: Option<Error>)
    requires FirstError(items).None?
    ensures Run(calls, error) == DeleteAll(env, deletes, items, allowLegacy)
  {
    hide Refused, ReplyError, FirstError, DeleteAll;
    calls := [];
    var i := 0;
    assert items[0..] == items;
    ghost var whole := DeleteAll(env, deletes, items, allowLegacy);
    assert Then(calls, whole) == whole;
    while i < |items|
      invariant 0 <= i <= |items| && FirstError(items[i..]).None?
      invariant whole == Then(calls, DeleteAll(env, deletes + i, items[i..], allowLegacy))
    {
      PageStep(env, deletes, items, allowLegacy, i, calls);
      var refused := Refused(items[i], allowLegacy);
      if refused.Some? { return calls, refused; }
      var call := Delete(items[i], env.delete(deletes + i));
      calls := calls + [call];
      var bad := ReplyError(items[i], call.outcome);
      if bad.Some? { return calls, bad; }
      i := i + 1;
    }
    PageStep(env, deletes, items, allowLegacy, i, calls);
    error := None;
  }

  lemma FirstErrorTail(items: seq<RawItem>, i: nat)
    requires i <= |items| && FirstError(items[i..]).None?
    ensures i < |items| ==> ItemError(items[i]).None? && FirstError(items[i + 1..]).None?
  {
    if i < |items| {
      assert items[i..][1..] == items[i + 1..];
    }
  }

  /** `clear_storage`: the calls it makes and the error it raises, if any. */
  method ClearStorage(env: Env, prefix: Option<string>, allowLegacy: bool)
    returns (calls: seq<Call>, error: Option<Error>)
    ensures Run(calls, error) == Clear(env, prefix, allowLegacy, 0, 0, None, {})
  {
    hide DeleteAll, FirstError, AllInScope;
    calls := [];
    var scans: nat, deletes: nat := 0, 0;
    var lastKey: Option<Key> := None;
    var seen: set<Digest> := {};
    ghost var whole := Clear(env, prefix, allowLegacy, 0, 0, None, {});
    assert Then(calls, whole) == whole;
    while true
      invariant scans >= 0 && deletes >= 0
      invariant whole == Then(calls, Clear(env, prefix, allowLegacy, scans, deletes, lastKey, seen))
      decreases DIGESTS - |seen|
    {
      var reply := env.scan(scans);
      var scan := Scan(lastKey, reply);
      ghost var before := calls;
      calls := calls + [scan];
      var items, next, bad := ValidatedScanPage(reply);
      if bad.Some? { return calls, bad; }
      if !AllInScope(prefix, items) { return calls, Some(OutOfScope); }
      if next.Some? {
        if env.digest(next.value) in seen { return calls, Some(RepeatedCursor); }
        seen := seen + {env.digest(next.value)};
      }
      var made, failed := DeletePage(env, deletes, items, allowLegacy);
      ThenThen(before, [scan], Run(made, failed));
      calls := calls + made;
      if failed.Some? { return calls, failed; }
      if next.None? { return calls, None; }
      FewDigests(seen);
      ghost var rest := Clear(env, prefix, allowLegacy, scans + 1, deletes + |made|, next, seen);
      assert before + [scan] + made == before + ([scan] + made);
      ThenThen(before, [scan] + made, rest);
      scans, deletes := scans + 1, deletes + |made|;
      lastKey := next;
    }
  }
}
