/** Over every interleaving of writers, clears and lazy cleanups on one DynamoDB table. */
module DynamoTableRuns {
  import opened Options
  import opened DynamoClear
  import opened DynamoTable

  ghost predicate Legal(s: State, events: seq<Event>)
    decreases |events|
  {
    events == [] || (Sane(s) && Enabled(s, events[0]) && Legal(Step(s, events[0]), events[1..]))
  }

  ghost function Run(s: State, events: seq<Event>): State
    requires Legal(s, events)
    decreases |events|
  {
    if events == [] then s else Run(Step(s, events[0]), events[1..])
  }

  lemma {:induction false} RunKeeps(s: State, events: seq<Event>)
    requires Ok(s) && Legal(s, events)
    ensures Ok(Run(s, events))
    decreases |events|
  {
    hide Ok, Step, Sane, Enabled;
    if events != [] {
      assert Sane(s) by { OkIsSane(s); }
      StepKeeps(s, events[0]);
      RunKeeps(Step(s, events[0]), events[1..]);
    }
  }

  lemma OkIsSane(s: State)
    requires Ok(s)
    ensures Sane(s)
  {
  }

  /** A clear never deletes a row written after the scan that saw it: what it removed is
      the very write seen, and its key has the clear's prefix. */
  lemma ClearDeletesOnlyWhatItSaw(s: State, events: seq<Event>, k: nat)
    requires Ok(s) && Legal(s, events)
    ensures var t := Run(s, events);
            k < |t.deletions| && t.deletions[k].ByClear? ==>
              var d := t.deletions[k];
              d.removed == d.seen.serial && d.removed < |t.history| && InScope(d.seen.prefix, t.history[d.removed].key)
  {
    RunKeeps(s, events);
    var t := Run(s, events);
    if k < |t.deletions| { assert Faithful(t.history, t.deletions[k]); }
  }

  /** Lazy cleanup never deletes a live row: what it removed had expired when the reader
      judged it.  A store it removed had read its clock a whole lifetime earlier; a row
      that landed after the judgement was dead on arrival. */
  lemma CleanupDeletesOnlyTheExpired(s: State, events: seq<Event>, k: nat)
    requires Ok(s) && Legal(s, events)
    ensures var t := Run(s, events);
            k < |t.deletions| && t.deletions[k].ByReap? ==>
              var d := t.deletions[k];
              && d.removed < |t.history| && d.read.judged.Some?
              && var w, (judged, mark) := t.history[d.removed], d.read.judged.value;
                 && w.key == d.read.key
                 && Expired(w.expireAt, judged) && judged <= d.at
                 && (w.stamp.Some? ==> w.stamp.value.0 + w.stamp.value.1 as real <= judged)
                 && (d.removed >= mark ==> Expired(w.expireAt, w.landedAt))
  {
    RunKeeps(s, events);
    var t := Run(s, events);
    if k < |t.deletions| { assert Faithful(t.history, t.deletions[k]); }
  }

  /** Exactly when cleanup removes the row that stands at its key, however late that row
      landed: when it carries the expiry that was read.  One that landed after the
      judgement, and before its own expiry, stays. */
  lemma LateRowReapedIff(s: State, read: int)
    requires Ok(s) && Enabled(s, Reaps(read))
    requires s.readers[read].key in s.table
    ensures var r := s.readers[read];
            var w := s.history[s.table[r.key]];
            && (r.key !in Step(s, Reaps(read)).table <==> w.expireAt == s.history[r.serial].expireAt)
            && (s.table[r.key] >= r.judged.value.1 && !Expired(w.expireAt, w.landedAt) ==>
                  Step(s, Reaps(read)).table == s.table)
  {
    var r := s.readers[read];
    assert JudgedWell(s.history, r, s.clock);
  }

  /** Every row that is gone is accounted for: it was overwritten, another program
      deleted the key, or the log records the clear or the cleanup that removed it. */
  lemma {:induction false} EveryLossAccounted(s: State, events: seq<Event>, key: Key)
    requires Ok(s) && Legal(s, events) && key in s.table
    ensures var t := Run(s, events);
            || (key in t.table && t.table[key] == s.table[key])
            || (exists n :: s.table[key] < n < |t.history| && t.history[n].key == key)
            || OtherDeletes(key) in events
            || (exists k :: 0 <= k < |t.deletions| && t.deletions[k].removed == s.table[key])
    decreases |events|
  {
    hide Ok, Faithful, JudgedWell, Stamped, ExpiryOf, Expired, ExpiryHolds, RevisionHolds;
    if events != [] {
      var u := Step(s, events[0]);
      OkIsSane(s);
      StepKeeps(s, events[0]);
      OkIsSane(u);
      LogsGrow(u, events[1..]);
      var t := Run(u, events[1..]);
      if key in u.table && u.table[key] == s.table[key] {
        EveryLossAccounted(u, events[1..], key);
      } else if |u.history| > |s.history| {
        assert u.history[|s.history|].key == key;
        assert t.history[|s.history|] == u.history[|s.history|];
      } else if |u.deletions| > |s.deletions| {
        StepRemoves(s, events[0], key);
        assert t.deletions[|s.deletions|] == u.deletions[|s.deletions|];
      } else {
        assert events[0] == OtherDeletes(key);
      }
    }
  }

  lemma StepRemoves(s: State, e: Event, key: Key)
    requires Ok(s) && Sane(s) && Enabled(s, e) && key in s.table
    requires |Step(s, e).deletions| > |s.deletions|
    ensures key !in Step(s, e).table ==> Step(s, e).deletions[|s.deletions|].removed == s.table[key]
  {
  }

  /** The write history and the log of deletions only grow. */
  lemma {:induction false} LogsGrow(s: State, events: seq<Event>)
    requires Legal(s, events)
    ensures s.history <= Run(s, events).history && s.deletions <= Run(s, events).deletions
    decreases |events|
  {
    hide Enabled, ExpiryOf, Expired, RevisionHolds, ExpiryHolds;
    if events != [] {
      LogsGrow(Step(s, events[0]), events[1..]);
    }
  }

  // ----- A stalled writer -----

  function Empty(now: real): State {
    State(now, map[], [], {}, map[], {}, map[], [])
  }

  lemma EmptyOk(now: real)
    ensures Ok(Empty(now))
  {
  }

  function StalledStores(key: Key, first: string, second: string): seq<Event> {
    [BeginStore(1, key, Some(1), first), PutLands(1), BeginStore(2, key, Some(1), second), Reads(7, key), Tick(1.75)]
  }

  function StoredAt(key: Key, revision: string, landed: real): Write {
    Write(key, Some(revision), Some(10.0), Some((8.5, 1)), landed)
  }

  /** One store landed and read, the other still on its way, the expiry just past. */
  function Stalled(key: Key, first: string, second: string): State {
    State(10.25, map[key := 0], [StoredAt(key, first, 8.5)], {first, second},
          map[2 := StoredAt(key, second, 8.5)], {}, map[7 := Read(key, 0, None)], [])
  }

  lemma ReachesStalled(key: Key, first: string, second: string)
    requires first != second
    ensures Legal(Empty(8.5), StalledStores(key, first, second))
    ensures Run(Empty(8.5), StalledStores(key, first, second)) == Stalled(key, first, second)
  {
    hide InScope;
    var events := StalledStores(key, first, second);
    assert Ceil(9.5) == 10;
    var s1 := Step(Empty(8.5), events[0]);
    var s2 := Step(s1, events[1]);
    var s3 := Step(s2, events[2]);
    var s4 := Step(s3, events[3]);
    RunsTo(s4, events[4..], Stalled(key, first, second));
    RunsTo(s3, events[3..], Stalled(key, first, second));
    RunsTo(s2, events[2..], Stalled(key, first, second));
    RunsTo(s1, events[1..], Stalled(key, first, second));
    RunsTo(Empty(8.5), events, Stalled(key, first, second));
  }

  /** Cleanup can remove a row written after the read that observed it.  A writer reads
      its clock at 8.5 with a lifetime of one second and stalls; another store of the
      key with the same expiry lands, is read and judged expired at 10.25; only then does
      the stalled put land, and the cleanup removes it.  The row was dead on arrival. */
  lemma StalledWriterIsReaped(key: Key, first: string, second: string)
    requires first != second
    ensures Ok(Stalled(key, first, second))
    ensures var events := [Judges(7), PutLands(2), Reaps(7)];
            var r := Read(key, 0, Some((10.25, 1)));
            && Legal(Stalled(key, first, second), events)
            && Run(Stalled(key, first, second), events).table == map[]
            && Run(Stalled(key, first, second), events).deletions == [ByReap(r, 1, 10.25)]
  {
    EmptyOk(8.5);
    ReachesStalled(key, first, second);
    RunKeeps(Empty(8.5), StalledStores(key, first, second));
    var events := [Judges(7), PutLands(2), Reaps(7)];
    var s0 := Stalled(key, first, second);
    var s1 := Step(s0, Judges(7));
    var s2 := Step(s1, PutLands(2));
    var s3 := Step(s2, Reaps(7));
    assert s1.readers[7] == Read(key, 0, Some((10.25, 1)));
    assert s3.table == map[];
    RunsTo(s2, events[2..], s3);
    RunsTo(s1, events[1..], s3);
    RunsTo(s0, events, s3);
  }

  lemma RunsTo(s: State, events: seq<Event>, end: State)
    requires events != [] && Sane(s) && Enabled(s, events[0])
    requires if |events| == 1 then Step(s, events[0]) == end
             else Legal(Step(s, events[0]), events[1..]) && Run(Step(s, events[0]), events[1..]) == end
    ensures Legal(s, events) && Run(s, events) == end
  {
  }

  // ----- Each step, row by row -----

  /** The write a key's row holds. */
  function RowAt(s: State, key: Key): Option<Write> {
    if key in s.table && s.table[key] < |s.history| then Some(s.history[s.table[key]]) else None
  }

  /** Exactly what a step leaves at a key.  A put that lands and another program's write
      replace the row; another program's delete takes it; a clear takes it if it carries the
      revision that was seen, and a cleanup if it carries the expiry that was read; nothing
      else touches it. */
  lemma RowExactly(s: State, e: Event, key: Key)
    requires Sane(s) && Enabled(s, e)
    ensures RowAt(Step(s, e), key)
         == match e
            case PutLands(store) =>
              if s.stores[store].key == key then Some(s.stores[store].(landedAt := s.clock)) else RowAt(s, key)
            case OtherWrites(k, expireAt) =>
              if k == key then Some(Write(key, None, expireAt, None, s.clock)) else RowAt(s, key)
            case OtherDeletes(k) => if k == key then None else RowAt(s, key)
            case ClearDeletes(seen) =>
              if seen.key == key && RowAt(s, key).Some?
                 && RowAt(s, key).value.revision == s.history[seen.serial].revision then None
              else RowAt(s, key)
            case Reaps(read) =>
              if s.readers[read].key == key && RowAt(s, key).Some?
                 && RowAt(s, key).value.expireAt == s.history[s.readers[read].serial].expireAt then None
              else RowAt(s, key)
            case _ => RowAt(s, key)
  {
  }

  /** Exactly how long a reader is on its way to a cleanup: from its read on, and past its
      judgement if the row it read is due by then. */
  lemma ReaderExactly(s: State, e: Event, read: int)
    requires Sane(s) && Enabled(s, e)
    ensures var n := Step(s, e);
            read in n.readers <==>
              || (e.Reads? && e.read == read)
              || (read in s.readers && !(e.Reaps? && e.read == read)
                  && !(e.Judges? && e.read == read
                       && !(s.history[s.readers[read].serial].expireAt.Some?
                            && s.history[s.readers[read].serial].expireAt.value <= s.clock)))
    ensures e.Judges? && e.read in Step(s, e).readers ==>
              Step(s, e).readers[e.read] == s.readers[e.read].(judged := Some((s.clock, |s.history|)))
  {
  }
}
