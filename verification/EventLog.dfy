/** The event log: numbering, de-duplication and purging as changes of one committed value,
    and the full history those changes build. */
module EventLog {
  import opened Common

  datatype Event = Event(
    seqNo: nat, streamSeq: nat, id: string, stream: string, provider: string, kind: string,
    subject: string, receivedAt: Time, dedupeKey: string)

  /** The events table in key order, the AUTOINCREMENT counter and the streams table. */
  datatype Log = Log(events: seq<Event>, lastSeq: nat, streams: map<string, nat>)

  const EMPTY_LOG := Log([], 0, map[])

  function LastOf(log: Log, stream: string): nat {
    if stream in log.streams then log.streams[stream] else 0
  }

  /** INSERT INTO streams ... ON CONFLICT DO UPDATE SET last_seq = last_seq + 1. */
  function NumberStream(log: Log, stream: string): Log {
    log.(streams := log.streams[stream := LastOf(log, stream) + 1])
  }

  /** INSERT INTO events, after the stream has been numbered; n is the AUTOINCREMENT value. */
  function InsertRow(log: Log, draft: Event, n: nat): Log {
    log.(events := log.events + [Stored(log, draft, n)], lastSeq := n)
  }

  function Stored(log: Log, draft: Event, n: nat): Event {
    draft.(seqNo := n, streamSeq := LastOf(log, draft.stream))
  }

  function Keep(events: seq<Event>, cutoff: Time): (r: seq<Event>)
    ensures forall e :: e in r <==> e in events && e.receivedAt >= cutoff
  {
    if events == [] then [] else
      var last := events[|events| - 1];
      Keep(events[..|events| - 1], cutoff) + (if last.receivedAt < cutoff then [] else [last])
  }

  /** DELETE FROM events WHERE received_at < cutoff. */
  function PurgeLog(log: Log, cutoff: Time): Log {
    log.(events := Keep(log.events, cutoff))
  }

  predicate SameKey(a: Event, b: Event) {
    a.dedupeKey != "" && a.provider == b.provider && a.dedupeKey == b.dedupeKey
  }

  /** SELECT ... WHERE provider = ? AND dedupe_key = ?, skipped for an empty key. */
  function FindDuplicate(events: seq<Event>, draft: Event): (r: Option<Event>)
    ensures r.Some? ==> r.value in events && SameKey(draft, r.value)
    ensures r.None? ==> forall e :: e in events ==> !SameKey(draft, e)
  {
    if events == [] then None
    else if SameKey(draft, events[0]) then Some(events[0])
    else FindDuplicate(events[1..], draft)
  }

  /** UNIQUE (id) and the partial unique index on (provider, dedupe_key). */
  predicate UniqueWith(events: seq<Event>, draft: Event) {
    forall e :: e in events ==> e.id != draft.id && !SameKey(draft, e)
  }

  // ---- Log changes --------------------------------------------------------------------

  datatype Change = Append(draft: Event, n: nat) | Purge(cutoff: Time)

  predicate Allowed(log: Log, ch: Change) {
    ch.Append? ==> ch.n > log.lastSeq && UniqueWith(log.events, ch.draft)
  }

  function Changed(log: Log, ch: Change): Log {
    match ch
    case Append(draft, n) => InsertRow(NumberStream(log, draft.stream), draft, n)
    case Purge(cutoff) => PurgeLog(log, cutoff)
  }

  /** Everything ever committed, in commit order. */
  function Extended(log: Log, hist: seq<Event>, ch: Change): seq<Event> {
    match ch
    case Append(draft, n) => hist + [Stored(NumberStream(log, draft.stream), draft, n)]
    case Purge(_) => hist
  }

  // ---- The invariant ------------------------------------------------------------------

  /** Later in the sequence means a higher seq and, within one stream, a higher stream_seq. */
  predicate InOrder(es: seq<Event>) {
    forall i, j :: 0 <= i < j < |es| ==>
      es[i].seqNo < es[j].seqNo && (es[i].stream == es[j].stream ==> es[i].streamSeq < es[j].streamSeq)
  }

  function OfStream(es: seq<Event>, stream: string): seq<Event> {
    if es == [] then [] else
      var last := es[|es| - 1];
      OfStream(es[..|es| - 1], stream) + (if last.stream == stream then [last] else [])
  }

  /** 1, 2, ..., n without gaps. */
  predicate Gapless(es: seq<Event>, n: nat) {
    |es| == n && forall i :: 0 <= i < |es| ==> es[i].streamSeq == i + 1
  }

  predicate Unique(es: seq<Event>) {
    forall i, j :: 0 <= i < j < |es| ==> es[i].id != es[j].id && !SameKey(es[i], es[j])
  }

  ghost predicate LogOk(log: Log, hist: seq<Event>) {
    && InOrder(hist) && InOrder(log.events)
    && (forall e :: e in log.events ==> e in hist)
    && (forall e :: e in hist ==> e.seqNo <= log.lastSeq && e.streamSeq <= LastOf(log, e.stream))
    && (forall name :: Gapless(OfStream(hist, name), LastOf(log, name)))
    && Unique(log.events)
  }

  /** Dropping rows keeps the rest in order ... */
  lemma {:induction false} KeepInOrder(es: seq<Event>, cutoff: Time)
    requires InOrder(es)
    ensures InOrder(Keep(es, cutoff))
  {
    if es != [] {
      var n := |es| - 1;
      KeepInOrder(es[..n], cutoff);
      forall e | e in Keep(es[..n], cutoff)
        ensures e.seqNo < es[n].seqNo && (e.stream == es[n].stream ==> e.streamSeq < es[n].streamSeq)
      {
        var i :| 0 <= i < n && es[i] == e;
      }
    }
  }

  /** ... and unique. */
  lemma {:induction false} KeepUnique(es: seq<Event>, cutoff: Time)
    requires Unique(es)
    ensures Unique(Keep(es, cutoff))
  {
    if es != [] {
      var n := |es| - 1;
      KeepUnique(es[..n], cutoff);
      forall e | e in Keep(es[..n], cutoff) ensures e.id != es[n].id && !SameKey(e, es[n]) {
        var i :| 0 <= i < n && es[i] == e;
      }
    }
  }

  /** A row numbered above the counters goes to the end of the order. */
  lemma OrderedAppend(es: seq<Event>, e: Event, lastSeq: nat, last: nat)
    requires InOrder(es)
    requires forall x :: x in es ==> x.seqNo <= lastSeq && (x.stream == e.stream ==> x.streamSeq <= last)
    requires e.seqNo > lastSeq && e.streamSeq == last + 1
    ensures InOrder(es + [e])
  {
  }

  lemma UniqueAppend(es: seq<Event>, draft: Event, e: Event)
    requires Unique(es) && UniqueWith(es, draft)
    requires e.id == draft.id && e.provider == draft.provider && e.dedupeKey == draft.dedupeKey
    ensures Unique(es + [e])
  {
  }

  lemma GaplessAppend(log: Log, hist: seq<Event>, e: Event, name: string)
    requires Gapless(OfStream(hist, name), LastOf(log, name))
    requires e.streamSeq == LastOf(log, e.stream) + 1
    ensures Gapless(OfStream(hist + [e], name), LastOf(NumberStream(log, e.stream), name))
  {
    assert (hist + [e])[..|hist|] == hist;
  }

  lemma AppendKeeps(log: Log, hist: seq<Event>, draft: Event, n: nat)
    requires LogOk(log, hist) && Allowed(log, Append(draft, n))
    ensures LogOk(Changed(log, Append(draft, n)), Extended(log, hist, Append(draft, n)))
  {
    hide InOrder, Unique, UniqueWith, Gapless, OfStream;
    var log' := Changed(log, Append(draft, n));
    var e := Stored(NumberStream(log, draft.stream), draft, n);
    OrderedAppend(hist, e, log.lastSeq, LastOf(log, e.stream));
    OrderedAppend(log.events, e, log.lastSeq, LastOf(log, e.stream));
    UniqueAppend(log.events, draft, e);
    forall name ensures Gapless(OfStream(hist + [e], name), LastOf(log', name)) {
      GaplessAppend(log, hist, e, name);
    }
  }

  lemma ChangeKeeps(log: Log, hist: seq<Event>, ch: Change)
    requires LogOk(log, hist) && Allowed(log, ch)
    ensures LogOk(Changed(log, ch), Extended(log, hist, ch))
    ensures hist <= Extended(log, hist, ch)
    ensures log.lastSeq <= Changed(log, ch).lastSeq
    ensures forall name :: LastOf(log, name) <= LastOf(Changed(log, ch), name)
  {
    match ch
    case Append(draft, n) => AppendKeeps(log, hist, draft, n);
    case Purge(cutoff) =>
      KeepInOrder(log.events, cutoff);
      KeepUnique(log.events, cutoff);
  }
}
