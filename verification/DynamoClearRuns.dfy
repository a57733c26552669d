/** What a clear of the DynamoDB backend does, over all replies, and what it leaves when
    the service pages honestly and nobody else writes. */
module DynamoClearRuns {
  import opened Options
  import opened DynamoClear

  // ----- Every sequence of replies -----

  /** A delete call the safety policy allows: the key is in scope and the call carries a
      revision in the generated grammar, or none and the maintenance override is on. */
  predicate Allowed(prefix: Option<string>, allowLegacy: bool, call: Call) {
    call.Delete? ==>
      && call.item.Item?
      && InScope(prefix, call.item.pk)
      && (match call.item.revision
          case Missing => allowLegacy
          case NotText => false
          case Text(s) => ValidRevision(s))
  }

  /** The call at `k` deletes an item that an earlier scan of the run returned. */
  predicate SeenBefore(calls: seq<Call>, k: nat)
    requires k < |calls|
  {
    calls[k].Delete? ==> exists j ::
        0 <= j < k && calls[j].Scan? && calls[j].page.Page? && calls[k].item in calls[j].page.items
  }

  /** The delete was confirmed: the service returned the row it removed, with the key and
      the revision the scan had shown, and the whole row when it showed no revision. */
  predicate Confirmed(call: Call) {
    call.Delete? ==>
      && call.item.Item? && call.outcome.Gone? && call.outcome.was.Item?
      && call.outcome.was.pk == call.item.pk && call.outcome.was.revision == call.item.revision
      && (call.item.revision.Missing? ==> call.outcome.was == call.item)
  }

  lemma {:induction false} PageCalls(env: Env, prefix: Option<string>, deletes: nat, items: seq<RawItem>,
                                     allowLegacy: bool)
    requires FirstError(items).None?
    ensures var r := DeleteAll(env, deletes, items, allowLegacy);
            && |r.calls| <= |items|
            && (forall i :: 0 <= i < |r.calls| ==>
                  && r.calls[i].Delete? && r.calls[i].item == items[i]
                  && (items[i].Item? && InScope(prefix, items[i].pk) ==> Allowed(prefix, allowLegacy, r.calls[i]))
                  && (i < |r.calls| - 1 || r.error.None? ==> Confirmed(r.calls[i])))
            && (r.error.None? ==> |r.calls| == |items|)
    decreases items
  {
    hide ValidRevision, InScope;
    if items != [] && Refused(items[0], allowLegacy).None? && ReplyError(items[0], env.delete(deletes)).None? {
      PageCalls(env, prefix, deletes + 1, items[1..], allowLegacy);
    }
  }

  /** One round of the loop: a scan, then the deletes of its page, then the rest. */
  lemma ClearUnfolds(env: Env, prefix: Option<string>, allowLegacy: bool, scans: nat, deletes: nat, start: Option<Key>,
                     seen: set<Digest>)
    returns (page: Run, rest: Run)
    ensures var r := Clear(env, prefix, allowLegacy, scans, deletes, start, seen);
            var scan := Scan(start, env.scan(scans));
            && r == Run([scan] + page.calls + rest.calls, rest.error)
            && (r.error.None? ==> PageError(scan.page).None? && page.error.None?)
            && (page.calls != [] ==>
                  && PageError(scan.page).None? && AllInScope(prefix, scan.page.items)
                  && page == DeleteAll(env, deletes, scan.page.items, allowLegacy))
            && (if rest.calls == [] then page.error == rest.error || rest.error.Some?
                else
                  && PageError(scan.page).None? && NextKey(scan.page).Some? && page.error.None?
                  && var digest := env.digest(NextKey(scan.page).value);
                     && digest !in seen
                     && rest == Clear(env, prefix, allowLegacy, scans + 1, deletes + |page.calls|, NextKey(scan.page),
                                      seen + {digest}))
  {
    var reply := env.scan(scans);
    var r := Clear(env, prefix, allowLegacy, scans, deletes, start, seen);
    page, rest := Run([], None), Run([], r.error);
    if PageError(reply).None? && AllInScope(prefix, reply.items) {
      var next := NextKey(reply);
      if next.None? || env.digest(next.value) !in seen {
        page := DeleteAll(env, deletes, reply.items, allowLegacy);
        if page.error.None? && next.Some? {
          rest := Clear(env, prefix, allowLegacy, scans + 1, deletes + |page.calls|, next,
                        seen + {env.digest(next.value)});
        }
      }
    }
    assert r.calls == [Scan(start, reply)] + page.calls + rest.calls;
  }

  lemma DigestsGrow(seen: set<Digest>, d: Digest)
    requires d !in seen
    ensures DIGESTS - |seen + {d}| < DIGESTS - |seen|
    ensures |seen + {d}| <= DIGESTS
  {
    FewDigests(seen + {d});
  }

  /** Over all replies: every delete call is for an item an earlier scan of this clear
      returned, in scope, with a readable revision unless the override is on; every
      delete but the last is confirmed, and the last one too on a normal return. */
  lemma {:induction false} EveryCallAllowed(env: Env, prefix: Option<string>, allowLegacy: bool, scans: nat,
                                            deletes: nat, start: Option<Key>, seen: set<Digest>)
    ensures var r := Clear(env, prefix, allowLegacy, scans, deletes, start, seen);
            && (forall k :: 0 <= k < |r.calls| ==> Allowed(prefix, allowLegacy, r.calls[k]))
            && (forall k :: 0 <= k < |r.calls| ==> SeenBefore(r.calls, k))
            && (forall k :: 0 <= k < |r.calls| ==> k < |r.calls| - 1 || r.error.None? ==> Confirmed(r.calls[k]))
    decreases DIGESTS - |seen|
  {
    hide Clear, DeleteAll, FirstError, ReplyError, ItemError, ValidRevision;
    var r := Clear(env, prefix, allowLegacy, scans, deletes, start, seen);
    var scan := Scan(start, env.scan(scans));
    var page, rest := ClearUnfolds(env, prefix, allowLegacy, scans, deletes, start, seen);
    if page.calls != [] {
      PageCalls(env, prefix, deletes, scan.page.items, allowLegacy);
    }
    if rest.calls != [] {
      var digest := env.digest(NextKey(scan.page).value);
      DigestsGrow(seen, digest);
      EveryCallAllowed(env, prefix, allowLegacy, scans + 1, deletes + |page.calls|, NextKey(scan.page),
                       seen + {digest});
    }
    var n := 1 + |page.calls|;
    forall k | 0 <= k < |r.calls|
      ensures Allowed(prefix, allowLegacy, r.calls[k])
      ensures SeenBefore(r.calls, k)
      ensures k < |r.calls| - 1 || r.error.None? ==> Confirmed(r.calls[k])
    {
      if k == 0 {
      } else if k < n {
        assert r.calls[k] == page.calls[k - 1];
        assert r.calls[0] == scan;
      } else {
        assert r.calls[k] == rest.calls[k - n];
        if r.calls[k].Delete? {
          assert SeenBefore(rest.calls, k - n);
          var j :| 0 <= j < k - n && rest.calls[j].Scan? && rest.calls[j].page.Page?
              && rest.calls[k - n].item in rest.calls[j].page.items;
          assert r.calls[n + j] == rest.calls[j];
        }
      }
    }
  }

  /** No page is asked for twice: the loop never scans from a cursor it started from. */
  lemma {:induction false} NoCursorTwice(env: Env, prefix: Option<string>, allowLegacy: bool, scans: nat, deletes: nat,
                                         start: Option<Key>, seen: set<Digest>)
    requires start.Some? ==> env.digest(start.value) in seen
    ensures var calls := Clear(env, prefix, allowLegacy, scans, deletes, start, seen).calls;
            && calls != [] && calls[0].Scan? && calls[0].start == start
            && (forall k :: 0 < k < |calls| && calls[k].Scan? ==>
                 calls[k].start.Some? && env.digest(calls[k].start.value) !in seen)
            && (forall j, k :: 0 <= j < k < |calls| && calls[j].Scan? && calls[k].Scan? ==>
                 calls[j].start != calls[k].start)
    decreases DIGESTS - |seen|
  {
    hide Clear, DeleteAll, FirstError, ReplyError, ItemError, ValidRevision;
    var r := Clear(env, prefix, allowLegacy, scans, deletes, start, seen);
    var scan := Scan(start, env.scan(scans));
    var page, rest := ClearUnfolds(env, prefix, allowLegacy, scans, deletes, start, seen);
    var n := 1 + |page.calls|;
    if page.calls != [] {
      PageCalls(env, prefix, deletes, scan.page.items, allowLegacy);
    }
    assert forall k :: 0 < k < n ==> r.calls[k] == page.calls[k - 1];
    assert forall k :: n <= k < |r.calls| ==> r.calls[k] == rest.calls[k - n];
    if rest.calls != [] {
      var digest := env.digest(NextKey(scan.page).value);
      DigestsGrow(seen, digest);
      NoCursorTwice(env, prefix, allowLegacy, scans + 1, deletes + |page.calls|, NextKey(scan.page), seen + {digest});
      assert rest.calls[0] == r.calls[n];
    }
  }

  // ----- Why a clear stops early -----

  predicate HasLegacy(items: seq<RawItem>) {
    exists i :: 0 <= i < |items| && items[i].Item? && items[i].revision.Missing?
  }

  predicate HasItem(items: seq<RawItem>, e: Error) {
    exists i :: 0 <= i < |items| &&
      if e == Malformed then items[i].NotAnItem?
      else items[i].Item? && (items[i].revision.NotText?
                              || (items[i].revision.Text? && !ValidRevision(items[i].revision.s)))
  }

  /** The reply to this call is a reason to report the error. */
  predicate Explains(prefix: Option<string>, call: Call, e: Error) {
    match e
    case ClientFailed => (call.Scan? && call.page.ScanRaised?) || (call.Delete? && call.outcome.DeleteRaised?)
    case ConcurrentWrite => call.Delete? && call.outcome.ConditionFailed?
    case MalformedDelete => call.Delete? && (call.outcome.NotAttributes? || (call.outcome.Gone? && !Confirmed(call)))
    case Malformed =>
      call.Scan? && (call.page.NotAPage?
                     || (call.page.Page? && (HasItem(call.page.items, e) || call.page.cursor.Unreadable?)))
    case MalformedRevision => call.Scan? && call.page.Page? && HasItem(call.page.items, e)
    case OutOfScope => call.Scan? && call.page.Page? && !AllInScope(prefix, call.page.items)
    case RepeatedCursor => call.Scan? && call.page.Page? && call.page.cursor.At?
    case UnfencedLegacy => false
  }

  lemma {:induction false} FirstErrorIs(items: seq<RawItem>)
    ensures FirstError(items).Some? ==>
              FirstError(items).value in {Malformed, MalformedRevision} && HasItem(items, FirstError(items).value)
  {
    if items != [] {
      FirstErrorIs(items[1..]);
      if ItemError(items[0]).None? && FirstError(items).Some? {
        var e := FirstError(items).value;
        assert forall i :: 0 < i < |items| ==> items[i] == items[1..][i - 1];
        assert HasItem(items[1..], e);
      }
    }
  }

  /** What ends the deletes of a page: the reply to the last call, or an item without a
      revision. */
  lemma {:induction false} PageStops(env: Env, prefix: Option<string>, deletes: nat, items: seq<RawItem>,
                                     allowLegacy: bool)
    requires FirstError(items).None?
    ensures var r := DeleteAll(env, deletes, items, allowLegacy);
            r.error.Some? ==>
              if r.error == Some(UnfencedLegacy) then !allowLegacy && HasLegacy(items)
              else r.calls != [] && Explains(prefix, r.calls[|r.calls| - 1], r.error.value)
    decreases items
  {
    hide ValidRevision;
    if items != [] && Refused(items[0], allowLegacy).None? && ReplyError(items[0], env.delete(deletes)).None? {
      PageStops(env, prefix, deletes + 1, items[1..], allowLegacy);
      assert forall i :: 0 < i < |items| ==> items[i] == items[1..][i - 1];
    }
  }

  predicate Stops(prefix: Option<string>, allowLegacy: bool, r: Run) {
    r.error.Some? ==>
      && r.calls != []
      && if r.error == Some(UnfencedLegacy)
         then
           !allowLegacy && exists k ::
             0 <= k < |r.calls| && r.calls[k].Scan? && r.calls[k].page.Page? && HasLegacy(r.calls[k].page.items)
         else Explains(prefix, r.calls[|r.calls| - 1], r.error.value)
  }

  lemma PageErrorIs(prefix: Option<string>, start: Option<Key>, reply: ScanReply)
    requires PageError(reply).Some?
    ensures PageError(reply).value != UnfencedLegacy && Explains(prefix, Scan(start, reply), PageError(reply).value)
  {
    hide ValidRevision;
    if reply.Page? { FirstErrorIs(reply.items); }
  }

  lemma StopsAfter(prefix: Option<string>, allowLegacy: bool, first: seq<Call>, r: Run)
    requires Stops(prefix, allowLegacy, r)
    ensures Stops(prefix, allowLegacy, Then(first, r))
  {
    hide Explains, HasLegacy;
    var calls := first + r.calls;
    if r.error == Some(UnfencedLegacy) {
      var k :| 0 <= k < |r.calls| && r.calls[k].Scan? && r.calls[k].page.Page? && HasLegacy(r.calls[k].page.items);
      assert calls[|first| + k] == r.calls[k];
    }
  }

  /** Why a clear stops early.  Over all replies, the error it reports is the one the reply
      to its last call stands for, or, without the override, that a page held an item
      without a revision. */
  lemma {:induction false} WhyItStops(env: Env, prefix: Option<string>, allowLegacy: bool, scans: nat, deletes: nat,
                                      start: Option<Key>, seen: set<Digest>)
    ensures Stops(prefix, allowLegacy, Clear(env, prefix, allowLegacy, scans, deletes, start, seen))
    decreases DIGESTS - |seen|
  {
    hide DeleteAll, FirstError, ReplyError, ItemError, ValidRevision, HasLegacy, HasItem;
    var reply := env.scan(scans);
    if PageError(reply).Some? {
      PageErrorIs(prefix, start, reply);
    } else if AllInScope(prefix, reply.items) {
      var next := NextKey(reply);
      if next.None? || env.digest(next.value) !in seen {
        var page := DeleteAll(env, deletes, reply.items, allowLegacy);
        PageStops(env, prefix, deletes, reply.items, allowLegacy);
        if page.error.Some? || next.None? {
          assert Then([Scan(start, reply)], page).calls[0] == Scan(start, reply);
          hide Explains;
        } else {
          hide Stops, Explains;
          DigestsGrow(seen, env.digest(next.value));
          WhyItStops(env, prefix, allowLegacy, scans + 1, deletes + |page.calls|, next,
                     seen + {env.digest(next.value)});
          StopsAfter(prefix, allowLegacy, [Scan(start, reply)] + page.calls,
                     Clear(env, prefix, allowLegacy, scans + 1, deletes + |page.calls|, next,
                           seen + {env.digest(next.value)}));
        }
      }
    }
  }
}
