/** Cursor consumption: what one page contains, and what a consumer that follows
    NextCursor sees while events are appended and purged around it. */
module Consumer {
  import opened Common
  import opened EventLog
  import W = Writers

  datatype ListResult = ListResult(events: seq<Event>, nextCursor: int, hasMore: bool)

  predicate IsAll(stream: string) { stream == "" || stream == "all" }

  /** What `after` is compared with: seq for the pseudo stream, stream_seq otherwise. */
  function CursorKey(stream: string, e: Event): int {
    if IsAll(stream) then e.seqNo else e.streamSeq
  }

  predicate InView(stream: string, e: Event) {
    IsAll(stream) || e.stream == stream
  }

  predicate Ahead(stream: string, after: int, e: Event) {
    InView(stream, e) && CursorKey(stream, e) > after
  }

  predicate KeysAscend(stream: string, es: seq<Event>) {
    forall i, j :: 0 <= i < j < |es| ==> CursorKey(stream, es[i]) < CursorKey(stream, es[j])
  }

  /** The page is the first `limit` events ahead of the cursor, in order and without a skip;
      HasMore says exactly whether one more is ahead of the new cursor. */
  ghost predicate IsPage(table: seq<Event>, stream: string, after: int, limit: nat, res: ListResult) {
    && |res.events| <= limit
    && KeysAscend(stream, res.events)
    && (forall e :: e in res.events ==> e in table && Ahead(stream, after, e))
    && (forall e :: e in table && Ahead(stream, after, e) && CursorKey(stream, e) <= res.nextCursor ==> e in res.events)
    && res.nextCursor == (if res.events == [] then after else CursorKey(stream, res.events[|res.events| - 1]))
    && (res.hasMore <==> exists e :: e in table && Ahead(stream, res.nextCursor, e))
    && (res.hasMore ==> |res.events| == limit)
  }

  /** What a pull may answer: a page of the snapshot it read, or nothing with the cursor
      unmoved, as when the request ends while it is being held. */
  ghost predicate IsAnswer(table: seq<Event>, stream: string, after: int, limit: nat, res: ListResult) {
    IsPage(table, stream, after, limit, res) || res == ListResult([], after, false)
  }

  // ---- The query ----------------------------------------------------------------------

  /** The rows ahead of the cursor, in table order. */
  function Rows(table: seq<Event>, stream: string, after: int): (r: seq<Event>)
    ensures forall e :: e in r <==> e in table && Ahead(stream, after, e)
  {
    if table == [] then [] else
      var n := |table| - 1;
      Rows(table[..n], stream, after) + (if Ahead(stream, after, table[n]) then [table[n]] else [])
  }

  /** Table order is the ORDER BY order of both queries. */
  lemma {:induction false} RowsAscend(table: seq<Event>, stream: string, after: int)
    requires InOrder(table)
    ensures KeysAscend(stream, Rows(table, stream, after))
  {
    if table != [] {
      var n := |table| - 1;
      RowsAscend(table[..n], stream, after);
      var front := Rows(table[..n], stream, after);
      forall i | 0 <= i < |front| && Ahead(stream, after, table[n])
        ensures CursorKey(stream, front[i]) < CursorKey(stream, table[n])
      {
        assert front[i] in front;
        var j :| 0 <= j < n && table[j] == front[i];
      }
    }
  }

  /** ListEvents: the loop over at most limit + 1 rows. */
  method ReadPage(rows: seq<Event>, stream: string, after: int, limit: nat) returns (res: ListResult)
    requires limit > 0 && |rows| <= limit + 1
    ensures res.events == rows[..Min(|rows|, limit)]
    ensures res.hasMore <==> |rows| > limit
    ensures res.nextCursor == if rows == [] then after else CursorKey(stream, rows[Min(|rows|, limit) - 1])
  {
    var events: seq<Event>, nextCursor, hasMore := [], after, false;
    var i := 0;
    while i < |rows|
      invariant 0 <= i <= |rows| && i <= limit
      invariant events == rows[..i] && !hasMore
      invariant nextCursor == if i == 0 then after else CursorKey(stream, rows[i - 1])
    {
      if |events| == limit {
        hasMore := true;
        break;
      }
      events := events + [rows[i]];
      nextCursor := CursorKey(stream, rows[i]);
      i := i + 1;
    }
    return ListResult(events, nextCursor, hasMore);
  }

  function EffectiveLimit(limit: int): nat {
    if limit <= 0 then 100 else limit
  }

  method ListEvents(table: seq<Event>, stream: string, after: int, limit: int) returns (res: ListResult)
    requires InOrder(table)
    ensures IsPage(table, stream, after, EffectiveLimit(limit), res)
    ensures var cap := if limit <= 0 then 100 else limit;
            |res.events| <= cap && (res.hasMore ==> |res.events| == cap)
    ensures forall e :: e in res.events ==> e in table
    ensures stream == "" || stream == "all" ==>
              && (forall e :: e in res.events ==> e.seqNo > after)
              && (forall i, j :: 0 <= i < j < |res.events| ==> res.events[i].seqNo < res.events[j].seqNo)
              && (forall e :: e in table && after < e.seqNo <= res.nextCursor ==> e in res.events)
              && res.nextCursor == (if res.events == [] then after else res.events[|res.events| - 1].seqNo)
              && (res.hasMore <==> exists e :: e in table && e.seqNo > res.nextCursor)
    ensures stream != "" && stream != "all" ==>
              && (forall e :: e in res.events ==> e.stream == stream && e.streamSeq > after)
              && (forall i, j :: 0 <= i < j < |res.events| ==> res.events[i].streamSeq < res.events[j].streamSeq)
              && (forall e :: e in table && e.stream == stream && after < e.streamSeq <= res.nextCursor ==>
                    e in res.events)
              && res.nextCursor == (if res.events == [] then after else res.events[|res.events| - 1].streamSeq)
              && (res.hasMore <==> exists e :: e in table && e.stream == stream && e.streamSeq > res.nextCursor)
  {
    var cap := EffectiveLimit(limit);
    var all := Rows(table, stream, after);
    res := ReadPage(all[..Min(|all|, cap + 1)], stream, after, cap);
    RowsAscend(table, stream, after);
    PageOfRows(table, stream, after, cap, all, res);
    PageOfAll(table, stream, after, cap, res);
    PageOfStream(table, stream, after, cap, res);
    hide Rows, KeysAscend, Ahead, CursorKey, InView, InOrder;
  }

  lemma PageOfAll(table: seq<Event>, stream: string, after: int, cap: nat, res: ListResult)
    requires IsPage(table, stream, after, cap, res)
    ensures stream == "" || stream == "all" ==>
              && (forall e :: e in res.events ==> e.seqNo > after)
              && (forall i, j :: 0 <= i < j < |res.events| ==> res.events[i].seqNo < res.events[j].seqNo)
              && (forall e :: e in table && after < e.seqNo <= res.nextCursor ==> e in res.events)
              && res.nextCursor == (if res.events == [] then after else res.events[|res.events| - 1].seqNo)
              && (res.hasMore <==> exists e :: e in table && e.seqNo > res.nextCursor)
  {
  }

  lemma PageOfStream(table: seq<Event>, stream: string, after: int, cap: nat, res: ListResult)
    requires IsPage(table, stream, after, cap, res)
    ensures stream != "" && stream != "all" ==>
              && (forall e :: e in res.events ==> e.stream == stream && e.streamSeq > after)
              && (forall i, j :: 0 <= i < j < |res.events| ==> res.events[i].streamSeq < res.events[j].streamSeq)
              && (forall e :: e in table && e.stream == stream && after < e.streamSeq <= res.nextCursor ==>
                    e in res.events)
              && res.nextCursor == (if res.events == [] then after else res.events[|res.events| - 1].streamSeq)
              && (res.hasMore <==> exists e :: e in table && e.stream == stream && e.streamSeq > res.nextCursor)
  {
  }

  /** Cutting the ordered rows at `limit`, with one row of look-ahead, gives the page. */
  lemma PageOfRows(table: seq<Event>, stream: string, after: int, limit: nat, all: seq<Event>, res: ListResult)
    requires limit > 0 && KeysAscend(stream, all)
    requires forall e :: e in all <==> e in table && Ahead(stream, after, e)
    requires var m := Min(|all|, limit);
             && res.events == all[..m] && (res.hasMore <==> |all| > limit)
             && res.nextCursor == if all == [] then after else CursorKey(stream, all[m - 1])
    ensures IsPage(table, stream, after, limit, res)
  {
    var m := Min(|all|, limit);
    if all == [] {
      assert res.events == [];
    } else {
      assert res.events[|res.events| - 1] == all[m - 1];
      forall e | e in all ensures e in res.events <==> CursorKey(stream, e) <= res.nextCursor {
        CutAt(stream, all, m, e);
      }
      assert all[m - 1] in all;
      PrefixAscends(stream, all, m);
      LookAhead(stream, all, m);
      hide KeysAscend;
      assert forall e :: e in table && Ahead(stream, res.nextCursor, e) ==> e in all;
    }
  }

  /** A row beyond the cut exists exactly when some row's key exceeds the cut's last. */
  lemma LookAhead(stream: string, all: seq<Event>, m: nat)
    requires KeysAscend(stream, all) && 0 < m <= |all|
    ensures m < |all| <==> exists e :: e in all && CursorKey(stream, e) > CursorKey(stream, all[m - 1])
  {
    if m < |all| {
      assert all[m] in all;
    }
  }

  lemma PrefixAscends(stream: string, all: seq<Event>, m: nat)
    requires KeysAscend(stream, all) && m <= |all|
    ensures KeysAscend(stream, all[..m])
  {
  }

  /** In ascending rows, the first m are those up to the key of row m - 1. */
  lemma CutAt(stream: string, all: seq<Event>, m: nat, e: Event)
    requires KeysAscend(stream, all) && 0 < m <= |all| && e in all
    ensures e in all[..m] <==> CursorKey(stream, e) <= CursorKey(stream, all[m - 1])
  {
  }

  // ---- Following the cursor -----------------------------------------------------------

  /** A consumer of one stream, and what was purged before its cursor got there. */
  datatype Reader = Reader(stream: string, cursor: int, got: seq<Event>, missed: set<Event>)

  datatype World = World(log: Log, hist: seq<Event>, reader: Reader)

  datatype Action = Happens(ch: Change) | Follow(limit: nat, res: ListResult)

  ghost predicate Enabled(w: World, a: Action) {
    match a
    case Happens(ch) => Allowed(w.log, ch)
    case Follow(limit, res) => limit > 0 && IsAnswer(w.log.events, w.reader.stream, w.reader.cursor, limit, res)
  }

  function PurgedAhead(w: World, ch: Change): set<Event> {
    var left := Changed(w.log, ch).events;
    set e | e in w.log.events && e !in left && Ahead(w.reader.stream, w.reader.cursor, e)
  }

  function Apply(w: World, a: Action): World {
    match a
    case Happens(ch) =>
      World(Changed(w.log, ch), Extended(w.log, w.hist, ch),
            w.reader.(missed := w.reader.missed + PurgedAhead(w, ch)))
    case Follow(_, res) =>
      w.(reader := w.reader.(cursor := res.nextCursor, got := w.reader.got + res.events))
  }

  /** The interleaved writers only ever drive this world by its own changes, whichever
      reader watches them. */
  lemma WritersDriveTheWorld(db: W.Db, s: W.Step, r: Reader)
    requires W.Serial(db) && W.Enabled(db, s)
    ensures var w, db', ch := World(db.committed, db.hist, r), W.Apply(db, s), W.Committed(db, s);
            if ch.None? then World(db'.committed, db'.hist, r) == w
            else && Enabled(w, Happens(ch.value))
                 && Apply(w, Happens(ch.value)).log == db'.committed
                 && Apply(w, Happens(ch.value)).hist == db'.hist
  {
  }

  ghost predicate Runs(w: World, acts: seq<Action>)
    decreases |acts|
  {
    acts == [] || (Enabled(w, acts[0]) && Runs(Apply(w, acts[0]), acts[1..]))
  }

  ghost function EndState(w: World, acts: seq<Action>): World
    requires Runs(w, acts)
    decreases |acts|
  {
    if acts == [] then w else EndState(Apply(w, acts[0]), acts[1..])
  }

  /** `start` is the cursor the consumer began with. */
  ghost predicate Inv(w: World, start: int) {
    LogOk(w.log, w.hist) && ReaderOk(w.log.events, w.hist, w.reader, start)
  }

  ghost predicate ReaderOk(table: seq<Event>, hist: seq<Event>, r: Reader, start: int) {
    && start <= r.cursor
    && (r.cursor == start || exists e :: e in hist && InView(r.stream, e) && CursorKey(r.stream, e) == r.cursor)
    && KeysAscend(r.stream, r.got)
    && (forall e :: e in r.got ==>
          e in hist && Ahead(r.stream, start, e) && CursorKey(r.stream, e) <= r.cursor && e !in r.missed)
    && (forall e :: e in hist && Ahead(r.stream, start, e) ==>
          if CursorKey(r.stream, e) <= r.cursor then e in r.got || e in r.missed
          else e in table || e in r.missed)
    && (forall e :: e in r.missed ==> e in hist && e !in table)
  }

  function NewEvent(log: Log, ch: Change): Event
    requires ch.Append?
  {
    Stored(NumberStream(log, ch.draft.stream), ch.draft, ch.n)
  }

  /** A new event's cursor key is above every committed key of the view. */
  lemma NewKeyIsAhead(log: Log, hist: seq<Event>, ch: Change, stream: string, x: Event)
    requires LogOk(log, hist) && Allowed(log, ch) && ch.Append?
    requires x in hist && InView(stream, x) && InView(stream, NewEvent(log, ch))
    ensures CursorKey(stream, x) < CursorKey(stream, NewEvent(log, ch))
  {
  }

  lemma ReaderAppend(table: seq<Event>, hist: seq<Event>, r: Reader, start: int, e: Event)
    requires ReaderOk(table, hist, r, start)
    requires e !in hist
    requires forall x :: x in hist && InView(r.stream, x) && InView(r.stream, e) ==>
               CursorKey(r.stream, x) < CursorKey(r.stream, e)
    ensures ReaderOk(table + [e], hist + [e], r, start)
  {
  }

  lemma AppendKeeps(w: World, ch: Change, start: int)
    requires Inv(w, start) && Allowed(w.log, ch) && ch.Append?
    ensures Inv(Apply(w, Happens(ch)), start)
  {
    hide ReaderOk, UniqueWith;
    var r := w.reader;
    var e := NewEvent(w.log, ch);
    ChangeKeeps(w.log, w.hist, ch);
    assert PurgedAhead(w, ch) == {};
    assert r.missed + {} == r.missed;
    forall x | x in w.hist
      ensures x != e && (InView(r.stream, x) && InView(r.stream, e) ==> CursorKey(r.stream, x) < CursorKey(r.stream, e))
    {
      if InView(r.stream, x) && InView(r.stream, e) {
        NewKeyIsAhead(w.log, w.hist, ch, r.stream, x);
      }
      assert x.seqNo < e.seqNo;
    }
    ReaderAppend(w.log.events, w.hist, r, start, e);
  }

  lemma PurgeKeeps(w: World, ch: Change, start: int)
    requires Inv(w, start) && Allowed(w.log, ch) && ch.Purge?
    ensures Inv(Apply(w, Happens(ch)), start)
  {
    ChangeKeeps(w.log, w.hist, ch);
    hide LogOk, KeysAscend, CursorKey, InView;
  }

  /** A page ends at its largest key, so its events lie between the old and the new cursor. */
  lemma PageBetween(table: seq<Event>, stream: string, after: int, limit: nat, res: ListResult)
    requires IsPage(table, stream, after, limit, res)
    ensures after <= res.nextCursor
    ensures forall e :: e in res.events ==> after < CursorKey(stream, e) <= res.nextCursor
    ensures res.nextCursor == after || exists e :: e in res.events && CursorKey(stream, e) == res.nextCursor
  {
  }

  lemma PagesAscend(stream: string, got: seq<Event>, page: seq<Event>, cursor: int)
    requires KeysAscend(stream, got) && KeysAscend(stream, page)
    requires forall e :: e in got ==> CursorKey(stream, e) <= cursor
    requires forall e :: e in page ==> cursor < CursorKey(stream, e)
    ensures KeysAscend(stream, got + page)
  {
  }

  lemma ReaderPull(table: seq<Event>, hist: seq<Event>, r: Reader, limit: nat, res: ListResult, start: int)
    requires ReaderOk(table, hist, r, start) && IsPage(table, r.stream, r.cursor, limit, res)
    requires forall e :: e in table ==> e in hist
    ensures ReaderOk(table, hist, r.(cursor := res.nextCursor, got := r.got + res.events), start)
  {
    PageBetween(table, r.stream, r.cursor, limit, res);
    PagesAscend(r.stream, r.got, res.events, r.cursor);
    hide KeysAscend;
  }

  lemma PullKeeps(w: World, limit: nat, res: ListResult, start: int)
    requires Inv(w, start) && Enabled(w, Follow(limit, res))
    ensures Inv(Apply(w, Follow(limit, res)), start)
  {
    assert forall e :: e in w.log.events ==> e in w.hist;
    if res == ListResult([], w.reader.cursor, false) {
      assert w.reader.got + [] == w.reader.got;
    } else {
      ReaderPull(w.log.events, w.hist, w.reader, limit, res, start);
    }
  }

  lemma {:induction false} RunKeeps(w: World, acts: seq<Action>, start: int)
    requires Inv(w, start) && Runs(w, acts)
    ensures Inv(EndState(w, acts), start)
    decreases |acts|
  {
    if acts != [] {
      match acts[0] {
        case Happens(ch) =>
          if ch.Append? { AppendKeeps(w, ch, start); } else { PurgeKeeps(w, ch, start); }
        case Follow(limit, res) => PullKeeps(w, limit, res, start);
      }
      RunKeeps(Apply(w, acts[0]), acts[1..], start);
    }
  }

  /** Events that were ahead of the starting cursor and gone before the consumer came. */
  function AlreadyPurged(w: World): set<Event> {
    set x | x in w.hist && x !in w.log.events && Ahead(w.reader.stream, w.reader.cursor, x)
  }

  /** Replay from any cursor, in either mode, with any page sizes and any appends and purges
      in between: pages come in strictly increasing order, and every event committed before
      or during the run beyond the starting cursor is in exactly one of three places: among
      those returned (once), still ahead of the cursor, or purged before the cursor came. */
  lemma ReplayIsExact(w: World, acts: seq<Action>, e: Event)
    requires LogOk(w.log, w.hist) && w.reader.got == [] && w.reader.missed == AlreadyPurged(w) && Runs(w, acts)
    requires var z := EndState(w, acts); e in z.hist && Ahead(w.reader.stream, w.reader.cursor, e)
    ensures var z := EndState(w, acts);
            var returned := e in z.reader.got;
            var ahead := CursorKey(w.reader.stream, e) > z.reader.cursor;
            var purged := e in z.reader.missed && !ahead;
            && KeysAscend(w.reader.stream, z.reader.got)
            && (returned || ahead || purged)
            && !(returned && ahead) && !(returned && purged)
  {
    StartOk(w);
    RunKeeps(w, acts, w.reader.cursor);
    StreamFixed(w, acts);
    hide LogOk, KeysAscend, Runs, EndState;
  }

  lemma StartOk(w: World)
    requires LogOk(w.log, w.hist) && w.reader.got == [] && w.reader.missed == AlreadyPurged(w)
    ensures Inv(w, w.reader.cursor)
  {
  }

  lemma {:induction false} StreamFixed(w: World, acts: seq<Action>)
    requires Runs(w, acts)
    ensures EndState(w, acts).reader.stream == w.reader.stream
    decreases |acts|
  {
    if acts != [] {
      StreamFixed(Apply(w, acts[0]), acts[1..]);
    }
  }

  // ---- handlePull ---------------------------------------------------------------------

  datatype PullConfig = PullConfig(defaultSize: int, maxSize: int)

  /** What one turn of the long poll meets: the snapshot it reads, or a failed read; whether
      the request context is done when asked; and whether the deadline has passed. */
  datatype Poll = Poll(table: seq<Event>, readFails: bool, ctxDone: bool, pastDeadline: bool)

  function ClampLimit(c: PullConfig, asked: Option<int>): int {
    var limit := if asked.None? then c.defaultSize else asked.value;
    var capped := if limit > c.maxSize then c.maxSize else limit;
    if capped <= 0 then c.defaultSize else capped
  }

  predicate NothingAhead(p: Poll, stream: string, after: int) {
    forall e :: e in p.table ==> !Ahead(stream, after, e)
  }

  /** Turns that took place are listed in `polls`; running out of them is ctx.Done while
      waiting. The request is held exactly through the turns that end it in no way, and the
      turn that does decides the answer, which on every exit is one that replay follows. */
  method HandlePull(c: PullConfig, stream: string, after: int, asked: Option<int>, waiting: bool, polls: seq<Poll>)
    returns (r: Result<ListResult>, turns: nat)
    requires forall p :: p in polls ==> InOrder(p.table)
    ensures 0 < c.defaultSize <= c.maxSize ==>
              ClampLimit(c, asked) == if asked.None? || asked.value <= 0 then c.defaultSize
                                      else if asked.value <= c.maxSize then asked.value else c.maxSize
    ensures turns <= |polls| && forall p :: p in polls[..turns] ==>
              waiting && !p.readFails && !p.ctxDone && !p.pastDeadline && NothingAhead(p, stream, after)
    ensures turns == |polls| ==> r == Ok(ListResult([], after, false))
    ensures turns < |polls| ==>
              var p := polls[turns];
              && (p.readFails || !NothingAhead(p, stream, after) || !waiting || p.pastDeadline || p.ctxDone)
              && (p.readFails ==> r == if p.ctxDone then Ok(ListResult([], after, false)) else Err("list events"))
              && (!p.readFails ==>
                    r.Ok? && IsPage(p.table, stream, after, EffectiveLimit(ClampLimit(c, asked)), r.value))
    ensures r.Ok? && turns < |polls| ==>
              IsAnswer(polls[turns].table, stream, after, EffectiveLimit(ClampLimit(c, asked)), r.value)
  {
    var limit := ClampLimit(c, asked);
    turns := 0;
    while turns < |polls|
      invariant turns <= |polls|
      invariant forall p :: p in polls[..turns] ==>
                  waiting && !p.readFails && !p.ctxDone && !p.pastDeadline && NothingAhead(p, stream, after)
    {
      var p := polls[turns];
      if p.readFails {
        if p.ctxDone {
          return Ok(ListResult([], after, false)), turns;
        }
        return Err("list events"), turns;
      }
      var res := ListEvents(p.table, stream, after, limit);
      if res.events != [] {
        assert res.events[0] in res.events;
        return Ok(res), turns;
      }
      assert NothingAhead(p, stream, after);
      if !waiting || p.pastDeadline || p.ctxDone {
        return Ok(res), turns;
      }
      turns := turns + 1;
    }
    return Ok(ListResult([], after, false)), turns;
  }
}
