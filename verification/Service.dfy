/** Ingestion: append, match, enqueue, each in its own transaction. */
module Service {
  import opened Common
  import opened Queue
  import opened EventLog
  import opened Store
  import S = Subscriptions
  import F = Filter

  /** The rows fan-out owes an event: one for each subscription it addresses. */
  ghost function OwedKeys(pm: F.PathMatcher, subs: map<SubId, Subscription>, ev: Event,
                          failing: set<SubId>): set<Key> {
    set id | id in subs && S.Owed(pm, subs[id], ev, Push) && id !in failing :: Key(id, ev.seqNo)
  }

  /** Enqueueing adds exactly the missing rows, never tried, and leaves every row there was
      alone whatever its status; so repeating it changes nothing. */
  lemma EnqueueIsIdempotent(q: Deliveries, sub: SubId, seqs: seq<nat>)
    ensures var q' := EnqueueRows(q, sub, seqs);
            && (forall k :: k in q' <==> k in q || InBatch(k, sub, seqs))
            && (forall k :: k in q' ==> q'[k] == if k in q then q[k] else FRESH)
            && EnqueueRows(q', sub, seqs) == q'
  {
  }

  /** The rows the enqueue loop adds for these matches. */
  function MatchKeys(matches: seq<Subscription>, n: nat, failing: set<SubId>): set<Key> {
    set sub | sub in matches && sub.id !in failing :: Key(sub.id, n)
  }

  lemma OneMore(q: Deliveries, ks: set<Key>, sub: SubId, n: nat)
    ensures EnqueueRows(WithFresh(q, ks), sub, [n]) == WithFresh(q, ks + {Key(sub, n)})
  {
  }

  /** The enqueue loop of Ingest; `failing` are the subscriptions whose transaction fails,
      which is logged and skipped. */
  method FanOut(st: Store, matches: seq<Subscription>, n: nat, failing: set<SubId>)
    modifies st`q
    ensures st.q == WithFresh(old(st.q), MatchKeys(matches, n, failing))
  {
    for i := 0 to |matches|
      invariant st.q == WithFresh(old(st.q), MatchKeys(matches[..i], n, failing))
    {
      var id := matches[i].id;
      ghost var done := MatchKeys(matches[..i], n, failing);
      assert matches[..i + 1] == matches[..i] + [matches[i]];
      assert MatchKeys(matches[..i + 1], n, failing) == if id in failing then done else done + {Key(id, n)};
      OneMore(old(st.q), done, id, n);
      hide EnqueueRows, WithFresh, MatchKeys;
      var ok := st.EnqueueDeliveries(id, [n], if id in failing then Some(0) else None);
    }
    assert matches[..|matches|] == matches;
  }

  // ---- Ingest -------------------------------------------------------------------------

  /** The two tables an ingest may change. */
  datatype Tables = Tables(log: Log, q: Deliveries)

  /** One Ingest call: the normalized event, the number AUTOINCREMENT would give it, the
      subscriptions at that moment, and what goes wrong. */
  datatype Call = Call(draft: Event, n: nat, subs: map<SubId, Subscription>, refused: bool,
                       matchFails: bool, failing: set<SubId>)

  predicate Adds(t: Tables, c: Call) {
    !c.refused && FindDuplicate(t.log.events, c.draft).None?
  }

  predicate Possible(t: Tables, c: Call) {
    Adds(t, c) ==> Allowed(t.log, Append(c.draft, c.n))
  }

  /** The event is logged and gets a pending row for every subscription it addresses; an
      event that is refused or already stored under its key changes nothing at all. */
  ghost function Ingested(pm: F.PathMatcher, t: Tables, c: Call): Tables {
    if !Adds(t, c) then t else
      var row := Stored(NumberStream(t.log, c.draft.stream), c.draft, c.n);
      Tables(Changed(t.log, Append(c.draft, c.n)),
             WithFresh(t.q, if c.matchFails then {} else OwedKeys(pm, c.subs, row, c.failing)))
  }

  method Ingest(st: Store, pm: F.PathMatcher, ev: Envelope, now: Time, newId: string, n: nat,
                fault: Fault, matchFails: bool, failing: set<SubId>)
    returns (r: Appended, complete: bool)
    requires st.Valid() && newId != "" && n > st.lastSeq
    modifies st`events, st`lastSeq, st`streams, st`hist, st`q, ev
    ensures st.Valid()
    ensures r.Rejected? <==> st.Refuses(old(st.Tables()), old(ev.Acceptable()), old(ev.Draft(now, newId)), fault)
    ensures var before := Tables(old(st.Tables()), old(st.q));
            var c := Call(old(ev.Draft(now, newId)), n, st.subs, r.Rejected?, matchFails, failing);
            && Possible(before, c)
            && Tables(st.Tables(), st.q) == Ingested(pm, before, c)
            && (r.Accepted? ==> r.duplicate == !Adds(before, c))
            && (r.Accepted? && r.duplicate ==> Some(r.stored) == FindDuplicate(old(st.events), c.draft))
            && (Adds(before, c) ==> st.hist == old(st.hist) + [r.stored] && complete == !matchFails)
            && (!Adds(before, c) ==> st.hist == old(st.hist))
  {
    hide LogOk, FindDuplicate, Changed, OwedKeys;
    complete := true;
    r := st.AppendEvent(ev, now, newId, n, fault);
    if r.Rejected? || r.duplicate {
      return;
    }
    ghost var draft := old(ev.Draft(now, newId));
    assert r.stored == Stored(NumberStream(old(st.Tables()), draft.stream), draft, n) by {
      assert st.hist[|old(st.hist)|] == r.stored;
    }
    if matchFails {
      complete := false;
      assert st.q == WithFresh(st.q, {});
      return;
    }
    var matches := S.MatchingSubscriptions(pm, st.subs, r.stored, Push);
    FanOut(st, matches, n, failing);
    assert MatchKeys(matches, n, failing) == OwedKeys(pm, st.subs, r.stored, failing) by {
      MatchesAreOwed(pm, st.subs, r.stored, matches, failing);
    }
  }

  lemma MatchesAreOwed(pm: F.PathMatcher, subs: map<SubId, Subscription>, ev: Event,
                       matches: seq<Subscription>, failing: set<SubId>)
    requires forall id :: id in subs ==> subs[id].id == id
    requires forall sub :: sub in matches <==> sub.id in subs && subs[sub.id] == sub && S.Owed(pm, sub, ev, Push)
    ensures MatchKeys(matches, ev.seqNo, failing) == OwedKeys(pm, subs, ev, failing)
  {
  }

  /** What may happen between two ingests: another ingest, or work that adds no row, such as
      delivery, requeue, purge and deletion. */
  datatype Happening = Ingests(call: Call) | Serves(after: Tables)

  ghost predicate Fits(t: Tables, h: Happening) {
    match h
    case Ingests(c) => Possible(t, c)
    case Serves(after) => after.q.Keys <= t.q.Keys && after.log.lastSeq == t.log.lastSeq
  }

  ghost function After(pm: F.PathMatcher, t: Tables, h: Happening): Tables {
    match h
    case Ingests(c) => Ingested(pm, t, c)
    case Serves(after) => after
  }

  ghost predicate Unfolds(pm: F.PathMatcher, t: Tables, hs: seq<Happening>)
    decreases |hs|
  {
    hs == [] || (Fits(t, hs[0]) && Unfolds(pm, After(pm, t, hs[0]), hs[1..]))
  }

  ghost function Reached(pm: F.PathMatcher, t: Tables, hs: seq<Happening>): Tables
    decreases |hs|
  {
    if hs == [] then t else Reached(pm, After(pm, t, hs[0]), hs[1..])
  }

  /** No row has a number that was not given to an event. */
  ghost predicate Numbered(t: Tables) {
    forall k :: k in t.q ==> k.seqNo <= t.log.lastSeq
  }

  lemma {:induction false} RowsAreNumbered(pm: F.PathMatcher, t: Tables, hs: seq<Happening>)
    requires Numbered(t) && Unfolds(pm, t, hs)
    ensures Numbered(Reached(pm, t, hs))
    decreases |hs|
  {
    if hs != [] {
      assert Numbered(After(pm, t, hs[0]));
      RowsAreNumbered(pm, After(pm, t, hs[0]), hs[1..]);
    }
  }

  /** Whatever has happened since the tables were empty, an error-free ingest of a new event
      adds exactly one row for each subscription that is owed it, pending and never tried,
      under the event's number, and touches no other row. */
  lemma FanOutIsExact(pm: F.PathMatcher, hs: seq<Happening>, c: Call, k: Key)
    requires Unfolds(pm, Tables(EMPTY_LOG, map[]), hs)
    requires var t := Reached(pm, Tables(EMPTY_LOG, map[]), hs); Possible(t, c) && Adds(t, c)
    requires !c.matchFails && c.failing == {}
    ensures var t := Reached(pm, Tables(EMPTY_LOG, map[]), hs);
            var t' := Ingested(pm, t, c);
            if k.seqNo == c.n then
              && k !in t.q
              && (k in t'.q <==>
                    && k.sub in c.subs && !c.subs[k.sub].status.Disabled? && c.subs[k.sub].mode.Push?
                    && S.Addresses(pm, c.subs[k.sub], c.draft))
              && (k in t'.q ==> t'.q[k] == Row(0, Pending, None))
            else (k in t'.q <==> k in t.q) && (k in t.q ==> t'.q[k] == t.q[k])
  {
    RowsAreNumbered(pm, Tables(EMPTY_LOG, map[]), hs);
    hide Unfolds, Reached;
  }

  /** Fan-out is not part of the append: if the subscriptions cannot be read, or enqueues
      fail, the event is stored all the same without those rows, and a retry under its key
      adds none of them. */
  lemma RetryDoesNotFanOut(pm: F.PathMatcher, t: Tables, first: Call, retry: Call)
    requires Adds(t, first) && SameKey(retry.draft, first.draft)
    ensures var t' := Ingested(pm, t, first);
            && (first.matchFails ==> t'.q == t.q)
            && (forall k :: k in t'.q && k.sub in first.failing ==> k in t.q)
            && FindDuplicate(t'.log.events, retry.draft).Some?
            && Ingested(pm, t', retry) == t'
  {
    var log' := Ingested(pm, t, first).log;
    var e := log'.events[|t.log.events|];
    assert e in log'.events && SameKey(retry.draft, e);
  }

  // ---- replay -------------------------------------------------------------------------

  ghost predicate Runs(pm: F.PathMatcher, t: Tables, calls: seq<Call>)
    decreases |calls|
  {
    calls == [] || (Possible(t, calls[0]) && Runs(pm, Ingested(pm, t, calls[0]), calls[1..]))
  }

  ghost function IngestAll(pm: F.PathMatcher, t: Tables, calls: seq<Call>): Tables
    decreases |calls|
  {
    if calls == [] then t else IngestAll(pm, Ingested(pm, t, calls[0]), calls[1..])
  }

  /** The duplicate reported is the event that was stored under the key. */
  lemma DuplicateIsOriginal(events: seq<Event>, draft: Event, e: Event)
    requires Unique(events) && e in events && SameKey(draft, e)
    ensures FindDuplicate(events, draft) == Some(e)
  {
  }

  /** Without purges, stored events stay and stay unique. */
  lemma {:induction false} AllRetained(pm: F.PathMatcher, t: Tables, calls: seq<Call>)
    requires Unique(t.log.events) && Runs(pm, t, calls)
    ensures Unique(IngestAll(pm, t, calls).log.events)
    ensures t.log.events <= IngestAll(pm, t, calls).log.events
    decreases |calls|
  {
    if calls != [] {
      var c := calls[0];
      if Adds(t, c) {
        UniqueAppend(t.log.events, c.draft, Stored(NumberStream(t.log, c.draft.stream), c.draft, c.n));
      }
      hide Unique, Allowed;
      AllRetained(pm, Ingested(pm, t, c), calls[1..]);
    }
  }

  lemma {:induction false} DuplicatesChangeNothing(pm: F.PathMatcher, t: Tables, calls: seq<Call>)
    requires forall c :: c in calls ==> !Adds(t, c)
    ensures Runs(pm, t, calls) && IngestAll(pm, t, calls) == t
    decreases |calls|
  {
    if calls != [] {
      assert calls[0] in calls;
      DuplicatesChangeNothing(pm, t, calls[1..]);
    }
  }

  /** Without purges, events already stored under a key may be ingested again in any order
      and number, after any other calls: log, counters and delivery rows stay as they are,
      and what each call reports is the original event. */
  lemma ReplayChangesNothing(pm: F.PathMatcher, t: Tables, others: seq<Call>, replayed: seq<Call>)
    requires Unique(t.log.events) && Runs(pm, t, others)
    requires forall c :: c in replayed ==> exists e :: e in t.log.events && SameKey(c.draft, e)
    ensures var after := IngestAll(pm, t, others);
            && Runs(pm, after, replayed) && IngestAll(pm, after, replayed) == after
            && forall c, e :: c in replayed && e in t.log.events && SameKey(c.draft, e) ==>
                 FindDuplicate(after.log.events, c.draft) == Some(e)
  {
    var after := IngestAll(pm, t, others);
    AllRetained(pm, t, others);
    forall c, e | c in replayed && e in t.log.events && SameKey(c.draft, e)
      ensures FindDuplicate(after.log.events, c.draft) == Some(e)
    {
      DuplicateIsOriginal(after.log.events, c.draft, e);
    }
    hide Unique, FindDuplicate, Runs, IngestAll;
    DuplicatesChangeNothing(pm, after, replayed);
  }
}
