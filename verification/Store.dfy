/** The store: one object whose fields are the tables, changed in place by each operation.
    A fault is an oracle for database errors; a transaction that fails leaves the tables
    as they were. */
module Store {
  import opened Common
  import opened Queue
  import opened EventLog
  import P = Protocol
  import S = Subscriptions
  import F = Filter

  // ---- The envelope -------------------------------------------------------------------

  /** unicode.IsSpace. */
  predicate IsSpace(c: char): (r: bool)
    ensures c < '\U{80}' ==> (r <==> c == ' ' || '\t' <= c <= '\r')
  {
    c in "\t\n\U{0B}\U{0C}\r \U{85}\U{A0}\U{1680}\U{2028}\U{2029}\U{202F}\U{205F}\U{3000}"
    || '\U{2000}' <= c <= '\U{200A}'
  }

  predicate Blank(s: string) {
    forall c :: c in s ==> IsSpace(c)
  }

  /** The fields of model.Event that numbering, de-duplication and filtering read. */
  class Envelope {
    var seqNo: nat
    var streamSeq: nat
    var id: string
    var stream: string
    var provider: string
    var kind: string
    var subject: string
    var receivedAt: Option<Time>
    var dedupeKey: string

    constructor (id: string, stream: string, provider: string, kind: string, subject: string,
                 receivedAt: Option<Time>, dedupeKey: string)
      ensures this.id == id && this.stream == stream && this.provider == provider && this.kind == kind
      ensures this.subject == subject && this.receivedAt == receivedAt && this.dedupeKey == dedupeKey
      ensures seqNo == 0 && streamSeq == 0
    {
      this.seqNo, this.streamSeq := 0, 0;
      this.id, this.stream, this.provider, this.kind := id, stream, provider, kind;
      this.subject, this.receivedAt, this.dedupeKey := subject, receivedAt, dedupeKey;
    }

    /** What Normalize makes of the fields when it accepts them. */
    function Draft(now: Time, newId: string): Event
      reads this
    {
      Event(seqNo, streamSeq, if id == "" then newId else id, if stream == "" then "default" else stream,
            provider, kind, subject, if receivedAt.None? then now else receivedAt.value, dedupeKey)
    }

    predicate Acceptable()
      reads this
    {
      provider != "" && kind != "" && (stream == "" || !Blank(stream))
    }

    method Normalize(now: Time, newId: string) returns (ok: bool)
      requires newId != ""
      modifies this
      ensures ok <==>
                && old(provider) != "" && old(kind) != ""
                && (old(stream) == "" || exists c :: c in old(stream) && !IsSpace(c))
      ensures ok ==>
                && id == (if old(id) == "" then newId else old(id))
                && stream == (if old(stream) == "" then "default" else old(stream))
                && receivedAt == Some(if old(receivedAt).None? then now else old(receivedAt).value)
      ensures ok ==> provider == old(provider) && kind == old(kind) && subject == old(subject)
      ensures ok ==> dedupeKey == old(dedupeKey) && seqNo == old(seqNo) && streamSeq == old(streamSeq)
    {
      if provider == "" || kind == "" {
        return false;
      }
      if id == "" {
        id := newId;
      }
      if stream == "" {
        stream := "default";
      }
      if receivedAt.None? {
        receivedAt := Some(now);
      }
      assert 'd' in "default" by { assert "default"[0] == 'd'; }
      return !Blank(stream);
    }
  }

  // ---- The tables ---------------------------------------------------------------------

  /** The statement of AppendEvent or PurgeOlderThan that fails, if any does. */
  datatype Fault = NoFault | BeginFails | CheckFails | NumberFails | InsertFails | CommitFails

  datatype Appended = Rejected(error: string) | Accepted(stored: Event, duplicate: bool)

  class Store {
    var events: seq<Event>
    var lastSeq: nat
    var streams: map<string, nat>
    var subs: map<SubId, Subscription>
    var q: Deliveries
    /** Everything ever committed, in commit order. */
    ghost var hist: seq<Event>

    function Tables(): Log
      reads this
    {
      Log(events, lastSeq, streams)
    }

    ghost predicate Valid()
      reads this
    {
      && LogOk(Tables(), hist)
      && forall id :: id in subs ==> subs[id].id == id && subs[id].stream != ""
    }

    constructor ()
      ensures Valid() && Tables() == EMPTY_LOG && subs == map[] && q == map[] && hist == []
    {
      events, lastSeq, streams, subs, q, hist := [], 0, map[], map[], map[], [];
      new;
      assert forall name :: Gapless(OfStream(hist, name), 0);
    }

    // ---- events.go ----

    /** Why an append is refused: the event itself, a clash of ids, or the database. A
        duplicate is found before any number is taken. */
    predicate Refuses(before: Log, acceptable: bool, draft: Event, fault: Fault) {
      || !acceptable || fault.BeginFails?
      || (fault.CheckFails? && draft.dedupeKey != "")
      || (FindDuplicate(before.events, draft).None? &&
           (fault in {NumberFails, InsertFails, CommitFails} || !UniqueWith(before.events, draft)))
    }

    /** The transaction of AppendEvent. */
    method Transact(draft: Event, n: nat, fault: Fault) returns (r: Appended)
      requires Valid() && n > lastSeq
      modifies this`events, this`lastSeq, this`streams, this`hist
      ensures Valid()
      ensures r.Rejected? <==> Refuses(old(Tables()), true, draft, fault)
      ensures r.Rejected? || r.duplicate ==> Tables() == old(Tables()) && hist == old(hist)
      ensures r.Accepted? ==>
                var dup := FindDuplicate(old(events), draft);
                r.duplicate == dup.Some? && (dup.Some? ==> r.stored == dup.value)
      ensures r.Accepted? && !r.duplicate ==>
                var ch := Append(draft, n);
                && Allowed(old(Tables()), ch) && Tables() == Changed(old(Tables()), ch)
                && hist == Extended(old(Tables()), old(hist), ch)
                && hist == old(hist) + [r.stored] && events == old(events) + [r.stored]
                && r.stored == Stored(NumberStream(old(Tables()), draft.stream), draft, n)
    {
      hide LogOk, FindDuplicate, SameKey;
      if fault.BeginFails? {
        return Rejected("begin");
      }
      var tx := Tables();
      if draft.dedupeKey != "" {
        if fault.CheckFails? {
          return Rejected("dedupe");
        }
        var existing := FindDuplicate(tx.events, draft);
        if existing.Some? {
          return Accepted(existing.value, true);
        }
      }
      KeylessIsNew(tx.events, draft);
      if fault.NumberFails? {
        return Rejected("assign stream sequence");
      }
      tx := NumberStream(tx, draft.stream);
      if fault.InsertFails? || !UniqueWith(tx.events, draft) {
        return Rejected("insert event");
      }
      var row := Stored(tx, draft, n);
      tx := InsertRow(tx, draft, n);
      if fault.CommitFails? {
        return Rejected("commit");
      }
      ChangeKeeps(Tables(), hist, Append(draft, n));
      hist := Extended(Tables(), hist, Append(draft, n));
      events, lastSeq, streams := tx.events, tx.lastSeq, tx.streams;
      return Accepted(row, false);
    }

    /** AppendEvent: one transaction. `n` is what AUTOINCREMENT would give the row. */
    method AppendEvent(ev: Envelope, now: Time, newId: string, n: nat, fault: Fault) returns (r: Appended)
      requires Valid() && newId != "" && n > lastSeq
      modifies this`events, this`lastSeq, this`streams, this`hist, ev
      ensures Valid()
      ensures r.Rejected? <==> Refuses(old(Tables()), old(ev.Acceptable()), old(ev.Draft(now, newId)), fault)
      ensures var taken := exists e :: e in old(events) && old(ev.dedupeKey) != "" &&
                             e.provider == old(ev.provider) && e.dedupeKey == old(ev.dedupeKey);
              var clash := exists e :: e in old(events) && e.id == if old(ev.id) == "" then newId else old(ev.id);
              && (r.Rejected? <==>
                    || old(ev.provider) == "" || old(ev.kind) == ""
                    || (old(ev.stream) != "" && forall c :: c in old(ev.stream) ==> IsSpace(c))
                    || fault.BeginFails? || (fault.CheckFails? && old(ev.dedupeKey) != "")
                    || (!taken && (fault in {NumberFails, InsertFails, CommitFails} || clash)))
              && (r.Accepted? ==> (r.duplicate <==> taken))
      ensures r.Accepted? && r.duplicate ==>
                && r.stored in old(events)
                && r.stored.provider == old(ev.provider) && r.stored.dedupeKey == old(ev.dedupeKey)
      ensures r.Accepted? && !r.duplicate ==>
                var name := r.stored.stream;
                && r.stored.seqNo == n == lastSeq
                && r.stored.streamSeq == (if name in old(streams) then old(streams)[name] else 0) + 1
                && streams == old(streams)[name := r.stored.streamSeq]
      ensures r.Accepted? && !r.duplicate ==>
                && r.stored.id == (if old(ev.id) == "" then newId else old(ev.id))
                && r.stored.stream == (if old(ev.stream) == "" then "default" else old(ev.stream))
                && r.stored.receivedAt == (if old(ev.receivedAt).None? then now else old(ev.receivedAt).value)
                && r.stored.provider == old(ev.provider) && r.stored.kind == old(ev.kind)
                && r.stored.subject == old(ev.subject) && r.stored.dedupeKey == old(ev.dedupeKey)
      ensures r.Rejected? || r.duplicate ==> Tables() == old(Tables()) && hist == old(hist)
      ensures r.Accepted? ==>
                var dup := FindDuplicate(old(events), old(ev.Draft(now, newId)));
                r.duplicate == dup.Some? && (dup.Some? ==> r.stored == dup.value)
      ensures r.Accepted? && !r.duplicate ==>
                var ch := Append(old(ev.Draft(now, newId)), n);
                && Allowed(old(Tables()), ch) && Tables() == Changed(old(Tables()), ch)
                && hist == Extended(old(Tables()), old(hist), ch)
                && hist == old(hist) + [r.stored] && events == old(events) + [r.stored]
                && ev.seqNo == r.stored.seqNo && ev.streamSeq == r.stored.streamSeq
    {
      hide LogOk, FindDuplicate, UniqueWith, SameKey, IsSpace;
      var ok := ev.Normalize(now, newId);
      if !ok {
        return Rejected("invalid");
      }
      var draft := ev.Draft(now, newId);
      assert draft == old(ev.Draft(now, newId));
      DuplicateMeans(events, draft);
      r := Transact(draft, n, fault);
      if r.Accepted? && !r.duplicate {
        ev.seqNo, ev.streamSeq := n, r.stored.streamSeq;
      }
    }

    /** PurgeOlderThan: deliveries first, then events, in one transaction. */
    method PurgeOlderThan(cutoff: Option<Time>, fails: bool) returns (ok: bool, deleted: nat)
      requires Valid()
      modifies this`events, this`q
      ensures Valid()
      ensures ok <==> cutoff.None? || !fails
      ensures cutoff.None? || fails ==> Tables() == old(Tables()) && q == old(q) && deleted == 0
      ensures cutoff.Some? && !fails ==>
                && Tables() == Changed(old(Tables()), Purge(cutoff.value))
                && deleted == |old(events)| - |events|
                && forall e :: e in events <==> e in old(events) && e.receivedAt >= cutoff.value
      ensures cutoff.Some? && !fails ==>
                && (forall k :: k in q ==> k in old(q) && q[k] == old(q)[k])
                && (forall k :: k in old(q) ==>
                      (k !in q <==> exists e :: e in old(events) && e.seqNo == k.seqNo && e.receivedAt < cutoff.value))
      ensures lastSeq == old(lastSeq) && streams == old(streams)
    {
      if cutoff.None? {
        return true, 0;
      }
      if fails {
        return false, 0;
      }
      ChangeKeeps(Tables(), hist, Purge(cutoff.value));
      KeepShrinks(events, cutoff.value);
      q := PurgeRows(q, Expired(events, cutoff.value));
      deleted := |events| - |Keep(events, cutoff.value)|;
      events := Keep(events, cutoff.value);
      ok := true;
    }

    // ---- deliveries.go ----

    /** EnqueueDeliveries: one INSERT OR IGNORE per number, all or none. */
    method EnqueueDeliveries(sub: SubId, seqs: seq<nat>, failsAt: Option<nat>) returns (ok: bool)
      modifies this`q
      ensures ok <==> failsAt.None? || failsAt.value > |seqs| || seqs == []
      ensures q == if ok then EnqueueRows(old(q), sub, seqs) else old(q)
      ensures ok ==> forall k :: k in q <==> k in old(q) || (k.sub == sub && k.seqNo in seqs)
      ensures forall k :: k in q ==> q[k] == if k in old(q) then old(q)[k] else Row(0, Pending, None)
    {
      if |seqs| == 0 {
        assert EnqueueRows(q, sub, seqs) == q;
        return true;
      }
      var tx := q;
      assert tx == EnqueueRows(q, sub, seqs[..0]);
      for i := 0 to |seqs|
        invariant tx == EnqueueRows(q, sub, seqs[..i])
        invariant q == old(q) && (failsAt.Some? ==> failsAt.value >= i)
      {
        if failsAt == Some(i) {
          return false;
        }
        var k := Key(sub, seqs[i]);
        assert seqs[..i + 1] == seqs[..i] + [seqs[i]];
        tx := if k in tx then tx else tx[k := FRESH];
      }
      if failsAt == Some(|seqs|) {
        return false;
      }
      assert seqs[..|seqs|] == seqs;
      q := tx;
      return true;
    }

    method RecoverInflight(fails: bool) returns (ok: bool, n: nat)
      modifies this`q
      ensures ok == !fails
      ensures !ok ==> q == old(q) && n == 0
      ensures ok ==>
                && q.Keys == old(q).Keys
                && (forall k :: k in q ==>
                      var r := old(q)[k];
                      q[k] == if r.status.Inflight? then Row(r.attempt, Pending, r.nextRetry) else r)
                && n == |set k | k in old(q) && old(q)[k].status.Inflight?|
    {
      if fails {
        return false, 0;
      }
      n := |InflightKeys(q)|;
      q := RecoverRows(q);
      ok := true;
    }

    /** LeaseDeliveries with nothing in between: SELECT, UPDATE, then the events. */
    method LeaseDeliveries(sub: SubId, limit: int, now: Time, leaseFails: bool, fetchFails: bool)
      returns (r: Result<(Lease, seq<Event>)>)
      modifies this`q
      ensures var seqs := DueBatch(old(q), sub, now, limit);
              && (seqs == [] || leaseFails ==> q == old(q))
              && (seqs != [] && !leaseFails ==> q == LeaseRows(old(q), sub, seqs))
              && (r.Err? <==> leaseFails || (seqs != [] && fetchFails))
              && (r.Ok? ==> r.value.0.seqs == seqs && r.value.1 == BySeq(events, seqs))
              && (r.Ok? && seqs != [] ==> r.value.0.headAttempt == old(q)[Key(sub, seqs[0])].attempt)
              && q.Keys == old(q).Keys
              && forall k :: k in q ==>
                   q[k] == if k.sub == sub && k.seqNo in seqs && !leaseFails
                           then Row(old(q)[k].attempt + 1, Inflight, old(q)[k].nextRetry) else old(q)[k]
    {
      if leaseFails {
        return Err("lease");
      }
      var seqs := DueBatch(q, sub, now, limit);
      if seqs == [] {
        BySeqNone(events);
        return Ok((Lease([], 0), []));
      }
      var lease := Lease(seqs, q[Key(sub, seqs[0])].attempt);
      q := LeaseRows(q, sub, seqs);
      if fetchFails {
        return Err("events");
      }
      return Ok((lease, BySeq(events, seqs)));
    }

    /** MarkDelivered: afterwards every given row that exists is delivered and waits for no
        retry, the cursor has passed the last of them, and nothing else has changed. */
    method MarkDelivered(sub: SubId, seqs: seq<nat>, fails: bool) returns (ok: bool)
      requires Valid()
      modifies this`q, this`subs
      ensures Valid() && ok == (seqs == [] || !fails)
      ensures !ok ==> q == old(q) && subs == old(subs)
      ensures q.Keys == old(q).Keys && subs.Keys == old(subs).Keys
      ensures ok ==> forall k :: k in q ==>
                if InBatch(k, sub, seqs) then q[k] == Row(old(q)[k].attempt, Delivered, None) else q[k] == old(q)[k]
      ensures ok ==> forall id :: id in subs ==>
                var before := old(subs)[id];
                subs[id] == before.(cursor := if id == sub && seqs != [] then Max(before.cursor, seqs[|seqs| - 1])
                                              else before.cursor)
    {
      if |seqs| == 0 {
        return true;
      }
      if fails {
        return false;
      }
      q := DeliverRows(q, sub, seqs);
      subs := P.AdvanceCursor(subs, sub, seqs[|seqs| - 1]);
      return true;
    }

    /** MarkFailed: afterwards every given row that exists is dead, or pending until the
        retry time; attempts, cursors and all other rows are as they were. */
    method MarkFailed(sub: SubId, seqs: seq<nat>, nextRetry: Option<Time>, dead: bool, fails: bool) returns (ok: bool)
      modifies this`q
      ensures ok == (seqs == [] || !fails)
      ensures !ok ==> q == old(q)
      ensures q.Keys == old(q).Keys
      ensures ok ==> forall k :: k in q ==>
                if !InBatch(k, sub, seqs) then q[k] == old(q)[k]
                else q[k] == Row(old(q)[k].attempt, if dead then Dead else Pending, if dead then None else nextRetry)
    {
      if |seqs| == 0 {
        return true;
      }
      if fails {
        return false;
      }
      q := FailRows(q, sub, seqs, nextRetry, dead);
      return true;
    }

    /** RequeueDeliveries; an omitted status means dead. */
    method RequeueDeliveries(scope: Option<SubId>, asked: Option<Status>, limit: int, fails: bool)
      returns (ok: bool, n: nat, ghost chosen: set<Key>)
      modifies this`q
      ensures ok == !fails && n == |chosen|
      ensures !ok ==> q == old(q) && chosen == {}
      ensures ok ==> RequeueChoice(old(q), scope, if asked.None? then Dead else asked.value, limit, chosen)
      ensures ok ==>
                var status := if asked.None? then Dead else asked.value;
                var all := set k | k in old(q) && old(q)[k].status == status && (scope.Some? ==> k.sub == scope.value);
                && chosen <= all
                && |chosen| == Min(|all|, if limit <= 0 then 100 else limit)
                && forall k, l :: k in chosen && l in all && l !in chosen ==> k.seqNo <= l.seqNo
      ensures q.Keys == old(q).Keys
      ensures forall k :: k in q ==> q[k] == if k in chosen then Row(0, Pending, None) else old(q)[k]
      ensures forall k :: k in q && scope.Some? && k.sub != scope.value ==> q[k] == old(q)[k]
    {
      if fails {
        return false, 0, {};
      }
      var status := if asked.None? then Dead else asked.value;
      var picked := LowestKeys(RequeueCandidates(q, scope, status), if limit <= 0 then 100 else limit);
      q := RequeueRows(q, picked);
      return true, |picked|, picked;
    }

    // ---- subscriptions.go ----

    /** CreateSubscription: defaults, then an INSERT that fails on a taken id. */
    method CreateSubscription(sub: Subscription, fails: bool) returns (ok: bool)
      requires Valid()
      modifies this`subs
      ensures Valid()
      ensures ok <==> sub.id != "" && !(sub.mode.Push? && sub.endpoint == "") && !fails && sub.id !in old(subs)
      ensures subs == if ok then old(subs)[sub.id := sub.(stream := if sub.stream == "" then "all" else sub.stream)]
                      else old(subs)
    {
      if sub.id == "" {
        return false;
      }
      var stream := if sub.stream == "" then "all" else sub.stream;
      if sub.mode.Push? && sub.endpoint == "" {
        return false;
      }
      if fails || sub.id in subs {
        return false;
      }
      subs := subs[sub.id := sub.(stream := stream)];
      return true;
    }

    /** DeleteSubscription: afterwards neither record nor row of the id is left, and
        everything of the others is. */
    method DeleteSubscription(id: SubId, fails: bool) returns (ok: bool)
      requires Valid()
      modifies this`subs, this`q
      ensures Valid() && ok == (!fails && id in old(subs))
      ensures !ok ==> subs == old(subs) && q == old(q)
      ensures ok ==> id !in subs && forall k :: k in q ==> k.sub != id
      ensures forall other :: other != id ==>
                && (other in subs <==> other in old(subs))
                && (other in subs ==> subs[other] == old(subs)[other])
      ensures forall k: Key :: k.sub != id ==> (k in q <==> k in old(q)) && (k in q ==> q[k] == old(q)[k])
    {
      if fails || id !in subs {
        return false;
      }
      subs := subs - {id};
      q := DropRows(q, id);
      return true;
    }

    method SetSubscriptionStatus(id: SubId, status: SubStatus, fails: bool) returns (ok: bool)
      requires Valid()
      modifies this`subs
      ensures Valid() && ok == (!fails && id in old(subs))
      ensures subs.Keys == old(subs).Keys
      ensures forall x :: x in subs ==>
                subs[x] == if ok && x == id then old(subs)[x].(status := status) else old(subs)[x]
    {
      ok := !fails && id in subs;
      if ok {
        subs := subs[id := subs[id].(status := status)];
      }
    }

    /** AdvanceCursor: an unknown id is no error. */
    method AdvanceCursor(id: SubId, cursor: int, fails: bool) returns (ok: bool)
      requires Valid()
      modifies this`subs
      ensures Valid() && ok == !fails
      ensures subs.Keys == old(subs).Keys
      ensures forall x :: x in subs ==>
                var before := old(subs)[x];
                subs[x] == before.(cursor := if ok && x == id then Max(before.cursor, cursor) else before.cursor)
    {
      ok := !fails;
      if ok {
        subs := P.AdvanceCursor(subs, id, cursor);
      }
    }
  }

  /** The look-up by key and the unique indexes, field by field. */
  lemma DuplicateMeans(events: seq<Event>, draft: Event)
    ensures var taken := exists e :: e in events && draft.dedupeKey != "" &&
                           e.provider == draft.provider && e.dedupeKey == draft.dedupeKey;
            var clash := exists e :: e in events && e.id == draft.id;
            && (FindDuplicate(events, draft).Some? <==> taken)
            && (taken ==>
                  var d := FindDuplicate(events, draft).value;
                  d in events && d.provider == draft.provider && d.dedupeKey == draft.dedupeKey)
            && (UniqueWith(events, draft) <==> !taken && !clash)
  {
    hide FindDuplicate;
  }

  lemma KeylessIsNew(events: seq<Event>, draft: Event)
    ensures draft.dedupeKey == "" ==> FindDuplicate(events, draft).None?
  {
    hide FindDuplicate;
  }

  /** Some row with the lowest number. */
  method LowestKey(ks: set<Key>) returns (k: Key)
    requires ks != {}
    ensures k in ks && forall l :: l in ks ==> k.seqNo <= l.seqNo
  {
    var numbers := set l | l in ks :: l.seqNo;
    var any :| any in ks;
    assert any.seqNo in numbers;
    var least := Least(numbers);
    k :| k in ks && k.seqNo == least;
    forall l | l in ks ensures least <= l.seqNo {
      assert l.seqNo in numbers;
    }
  }

  /** ORDER BY event_seq LIMIT cap. */
  method LowestKeys(all: set<Key>, cap: nat) returns (picked: set<Key>)
    ensures picked <= all && |picked| == Min(|all|, cap)
    ensures forall k, l :: k in picked && l in all && l !in picked ==> k.seqNo <= l.seqNo
  {
    picked := {};
    while |picked| < cap && picked != all
      invariant picked <= all && |picked| <= Min(|all|, cap)
      invariant forall k, l :: k in picked && l in all && l !in picked ==> k.seqNo <= l.seqNo
      decreases |all - picked|
    {
      var k := LowestKey(all - picked);
      SubsetCard(picked + {k}, all);
      picked := picked + {k};
    }
    SubsetCard(picked, all);
  }

  function Expired(events: seq<Event>, cutoff: Time): set<nat> {
    set e | e in events && e.receivedAt < cutoff :: e.seqNo
  }

  lemma {:induction false} KeepShrinks(events: seq<Event>, cutoff: Time)
    ensures |Keep(events, cutoff)| <= |events|
  {
    if events != [] {
      KeepShrinks(events[..|events| - 1], cutoff);
    }
  }

  /** eventsBySeq: the retained events with these numbers, in seq order. */
  function BySeq(events: seq<Event>, seqs: seq<nat>): (r: seq<Event>)
    ensures forall e :: e in r <==> e in events && e.seqNo in seqs
  {
    if events == [] then [] else
      var n := |events| - 1;
      BySeq(events[..n], seqs) + (if events[n].seqNo in seqs then [events[n]] else [])
  }

  lemma {:induction false} BySeqNone(events: seq<Event>)
    ensures BySeq(events, []) == []
  {
    if events != [] {
      BySeqNone(events[..|events| - 1]);
    }
  }

  function Numbers(es: seq<Event>): (r: seq<nat>)
    ensures |r| == |es| && forall i :: 0 <= i < |es| ==> r[i] == es[i].seqNo
  {
    seq(|es|, i requires 0 <= i < |es| => es[i].seqNo)
  }

  lemma {:induction false} BySeqAscends(events: seq<Event>, seqs: seq<nat>)
    requires InOrder(events)
    ensures Ascending(Numbers(BySeq(events, seqs)))
  {
    if events != [] {
      var n := |events| - 1;
      BySeqAscends(events[..n], seqs);
      var front := BySeq(events[..n], seqs);
      forall i | 0 <= i < |front| ensures front[i].seqNo < events[n].seqNo {
        assert front[i] in front;
      }
    }
  }

  function Retained(events: seq<Event>): (r: set<nat>)
    ensures forall n :: n in r <==> exists e :: e in events && e.seqNo == n
  {
    set e | e in events :: e.seqNo
  }

  lemma NumbersOf(events: seq<Event>, seqs: seq<nat>, n: nat)
    ensures n in Numbers(BySeq(events, seqs)) <==> n in Retained(events) && n in seqs
  {
  }

  lemma FetchIsPayload(events: seq<Event>, seqs: seq<nat>)
    requires InOrder(events)
    ensures Numbers(BySeq(events, seqs)) == Payload(Retained(events), seqs)
  {
    BySeqAscends(events, seqs);
    hide BySeq, Numbers, InOrder;
    forall n: nat ensures n in Numbers(BySeq(events, seqs)) <==> n in Payload(Retained(events), seqs) {
      NumbersOf(events, seqs, n);
    }
    assert Elements(Numbers(BySeq(events, seqs))) == Elements(Payload(Retained(events), seqs));
    AscendingSame(Numbers(BySeq(events, seqs)), Payload(Retained(events), seqs));
  }

  /** The events posted are those of the leased rows one for one, in order, or there are
      fewer of them because some leased row's event is no longer retained. */
  lemma PayloadIsBatch(events: seq<Event>, seqs: seq<nat>)
    requires InOrder(events) && Ascending(seqs)
    ensures var posted := Numbers(BySeq(events, seqs));
            && |posted| <= |seqs|
            && (|posted| == |seqs| ==> posted == seqs)
            && (|posted| != |seqs| <==> exists n :: n in seqs && n !in Retained(events))
  {
    FetchIsPayload(events, seqs);
    PayloadCorresponds(Retained(events), seqs);
  }
}
