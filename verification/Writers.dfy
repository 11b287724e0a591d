/** The ordering contract: any number of AppendEvent and PurgeOlderThan calls run at once,
    cut at every lock operation, statement and commit, and readers look in between. */
module Writers {
  import opened Common
  import opened EventLog

  /** Control points of one call. `tx` is the transaction's private copy of the tables. */
  datatype Phase =
    | Wanting(draft: Event)
    | Locked(draft: Event)
    | Began(draft: Event, tx: Log)
    | Checked(draft: Event, tx: Log)
    | Numbered(draft: Event, tx: Log)
    | Inserted(draft: Event, row: Event, tx: Log)
    | PurgeWanting(cutoff: Time)
    | PurgeLocked(cutoff: Time)
    | PurgeBegan(cutoff: Time, tx: Log)
    | Purged(cutoff: Time, tx: Log)
    | Closing

  datatype Db = Db(committed: Log, hist: seq<Event>, lock: Option<nat>, calls: map<nat, Phase>)

  datatype Move =
    | CallAppend(draft: Event)
    | CallPurge(cutoff: Time)
    | Lock
    | Begin
    | Check
    | Number
    | Insert(n: nat)
    | Delete
    | Commit
    | Fail
    | Unlock

  datatype Step = Step(w: nat, move: Move)

  predicate HoldsLock(p: Phase) {
    !p.Wanting? && !p.PurgeWanting?
  }

  predicate Enabled(db: Db, s: Step) {
    if s.move.CallAppend? || s.move.CallPurge? then s.w !in db.calls
    else
      && s.w in db.calls
      && var p := db.calls[s.w];
         match s.move
         case Lock => (p.Wanting? || p.PurgeWanting?) && db.lock.None?
         case Begin => p.Locked? || p.PurgeLocked?
         case Check => p.Began?
         case Number => p.Checked?
         case Insert(n) => p.Numbered? && n > p.tx.lastSeq && UniqueWith(p.tx.events, p.draft)
         case Delete => p.PurgeBegan?
         case Commit => p.Inserted? || p.Purged?
         case Fail => HoldsLock(p) && !p.Closing?
         case Unlock => p.Closing?
         case _ => false
  }

  function To(db: Db, w: nat, p: Phase): Db {
    db.(calls := db.calls[w := p])
  }

  function Apply(db: Db, s: Step): Db
    requires Enabled(db, s)
  {
    var w := s.w;
    match s.move
    case CallAppend(draft) => To(db, w, Wanting(draft))
    case CallPurge(cutoff) => To(db, w, PurgeWanting(cutoff))
    case Lock =>
      var p := db.calls[w];
      To(db.(lock := Some(w)), w, if p.Wanting? then Locked(p.draft) else PurgeLocked(p.cutoff))
    case Begin =>
      var p := db.calls[w];
      To(db, w, if p.Locked? then Began(p.draft, db.committed) else PurgeBegan(p.cutoff, db.committed))
    case Check =>
      var p := db.calls[w];
      To(db, w, if FindDuplicate(p.tx.events, p.draft).Some? then Closing else Checked(p.draft, p.tx))
    case Number =>
      var p := db.calls[w];
      To(db, w, Numbered(p.draft, NumberStream(p.tx, p.draft.stream)))
    case Insert(n) =>
      var p := db.calls[w];
      To(db, w, Inserted(p.draft, Stored(p.tx, p.draft, n), InsertRow(p.tx, p.draft, n)))
    case Delete =>
      var p := db.calls[w];
      To(db, w, Purged(p.cutoff, PurgeLog(p.tx, p.cutoff)))
    case Commit =>
      var p := db.calls[w];
      To(db.(committed := p.tx,
             hist := if p.Inserted? then db.hist + [p.row] else db.hist), w, Closing)
    case Fail => To(db, w, Closing)
    case Unlock => db.(lock := None, calls := db.calls - {w})
  }

  // ---- The lock serializes the transactions -------------------------------------------

  /** A transaction's copy is the committed state plus its own statements so far. */
  ghost predicate Current(log: Log, p: Phase) {
    match p
    case Began(_, tx) => tx == log
    case Checked(_, tx) => tx == log
    case Numbered(draft, tx) => tx == NumberStream(log, draft.stream)
    case Inserted(draft, row, tx) =>
      var ch := Append(draft, row.seqNo);
      Allowed(log, ch) && tx == Changed(log, ch) && Extended(log, [], ch) == [row]
    case PurgeBegan(_, tx) => tx == log
    case Purged(cutoff, tx) => tx == Changed(log, Purge(cutoff))
    case _ => true
  }

  ghost predicate Serial(db: Db) {
    && (forall w :: w in db.calls && HoldsLock(db.calls[w]) ==> db.lock == Some(w))
    && (db.lock.Some? ==> db.lock.value in db.calls && HoldsLock(db.calls[db.lock.value]))
    && (forall w :: w in db.calls ==> Current(db.committed, db.calls[w]))
  }

  /** What a commit does to the log, if the step is one. */
  function Committed(db: Db, s: Step): Option<Change>
    requires Enabled(db, s)
  {
    if !s.move.Commit? then None
    else if db.calls[s.w].Inserted? then Some(Append(db.calls[s.w].draft, db.calls[s.w].row.seqNo))
    else Some(Purge(db.calls[s.w].cutoff))
  }

  /** However calls are interleaved, the committed state only ever changes by whole appends
      and purges applied to itself; a failed or duplicate append changes nothing. */
  lemma StepIsAtomic(db: Db, s: Step)
    requires Serial(db) && Enabled(db, s)
    ensures var db', ch := Apply(db, s), Committed(db, s);
            && Serial(db')
            && (ch.None? ==> db'.committed == db.committed && db'.hist == db.hist)
            && (ch.Some? ==>
                  && Allowed(db.committed, ch.value)
                  && db'.committed == Changed(db.committed, ch.value)
                  && db'.hist == Extended(db.committed, db.hist, ch.value))
  {
    var p := if s.w in db.calls then db.calls[s.w] else Closing;
    if s.move.Commit? {
      assert Current(db.committed, p);
    }
  }

  /** The check ends a call exactly if an event with its provider and key is committed. */
  lemma CheckDecides(db: Db, w: nat)
    requires Serial(db) && Enabled(db, Step(w, Check))
    ensures var draft := db.calls[w].draft;
            Apply(db, Step(w, Check)).calls[w].Closing? <==>
              draft.dedupeKey != "" &&
              exists e :: e in db.committed.events && e.provider == draft.provider && e.dedupeKey == draft.dedupeKey
  {
    assert Current(db.committed, db.calls[w]);
  }

  ghost predicate Inv(db: Db) {
    Serial(db) && LogOk(db.committed, db.hist)
  }

  predicate Runs(db: Db, steps: seq<Step>)
    decreases |steps|
  {
    steps == [] || (Enabled(db, steps[0]) && Runs(Apply(db, steps[0]), steps[1..]))
  }

  function EndState(db: Db, steps: seq<Step>): Db
    requires Runs(db, steps)
    decreases |steps|
  {
    if steps == [] then db else EndState(Apply(db, steps[0]), steps[1..])
  }

  lemma StepKeeps(db: Db, s: Step)
    requires Inv(db) && Enabled(db, s)
    ensures Inv(Apply(db, s))
    ensures db.hist <= Apply(db, s).hist
    ensures forall name :: LastOf(db.committed, name) <= LastOf(Apply(db, s).committed, name)
    ensures db.committed.lastSeq <= Apply(db, s).committed.lastSeq
  {
    StepIsAtomic(db, s);
    var ch := Committed(db, s);
    if ch.Some? {
      ChangeKeeps(db.committed, db.hist, ch.value);
    }
  }

  lemma {:induction false} RunKeeps(db: Db, steps: seq<Step>)
    requires Inv(db) && Runs(db, steps)
    ensures Inv(EndState(db, steps)) && db.hist <= EndState(db, steps).hist
    ensures db.committed.lastSeq <= EndState(db, steps).committed.lastSeq
    ensures forall name :: LastOf(db.committed, name) <= LastOf(EndState(db, steps).committed, name)
    decreases |steps|
  {
    if steps != [] {
      StepKeeps(db, steps[0]);
      RunKeeps(Apply(db, steps[0]), steps[1..]);
    }
  }

  predicate Initial(db: Db) {
    db == Db(EMPTY_LOG, [], None, map[])
  }

  lemma InitialInv(db: Db)
    requires Initial(db)
    ensures Inv(db)
  {
  }

  /** No visibility hole: between two reads of one run, everything that became visible is
      numbered above everything committed before the first read, whether the first reader
      saw it or a purge had already removed it. */
  lemma NoVisibilityHole(db0: Db, before: seq<Step>, after: seq<Step>, seen: Event, late: Event)
    requires Initial(db0) && Runs(db0, before) && Runs(EndState(db0, before), after)
    requires var s1 := EndState(db0, before);
             && (seen in s1.committed.events || seen in s1.hist)
             && late in EndState(s1, after).committed.events && late !in s1.hist
    ensures seen.seqNo < late.seqNo
    ensures seen.stream == late.stream ==> seen.streamSeq < late.streamSeq
  {
    InitialInv(db0);
    RunKeeps(db0, before);
    var s1 := EndState(db0, before);
    RunKeeps(s1, after);
    var s2 := EndState(s1, after);
    assert late in s2.hist && seen in s1.hist;
    var i :| 0 <= i < |s1.hist| && s1.hist[i] == seen;
    var j :| 0 <= j < |s2.hist| && s2.hist[j] == late;
    assert s2.hist[i] == s1.hist[i];
    assert j >= |s1.hist|;
  }

  /** Stream numbers are 1, 2, ..., last_seq over the whole history, in seq order, and the
      counter never falls, so neither failures nor purges leave a gap or reuse a number. */
  lemma StreamsAreGapless(db0: Db, steps: seq<Step>, name: string)
    requires Initial(db0) && Runs(db0, steps)
    ensures var db := EndState(db0, steps);
            && Gapless(OfStream(db.hist, name), LastOf(db.committed, name))
            && InOrder(db.hist)
            && forall e :: e in db.committed.events ==> e in db.hist
  {
    InitialInv(db0);
    RunKeeps(db0, steps);
  }

  /** At every moment retained events are unique by id and by (provider, non-empty key). */
  lemma RetainedAreUnique(db0: Db, steps: seq<Step>)
    requires Initial(db0) && Runs(db0, steps)
    ensures var es := EndState(db0, steps).committed.events;
            forall i, j :: 0 <= i < j < |es| ==>
              && es[i].id != es[j].id
              && !(es[i].dedupeKey != "" && es[i].provider == es[j].provider && es[i].dedupeKey == es[j].dedupeKey)
  {
    InitialInv(db0);
    RunKeeps(db0, steps);
  }

  /** Moves a call has left before it returns. */
  function Left(p: Phase): nat {
    match p
    case Wanting(_) => 7
    case PurgeWanting(_) => 7
    case Locked(_) => 6
    case PurgeLocked(_) => 6
    case Began(_, _) => 5
    case PurgeBegan(_, _) => 5
    case Checked(_, _) => 4
    case Numbered(_, _) => 3
    case Inserted(_, _, _) => 2
    case Purged(_, _) => 2
    case Closing => 1
  }

  predicate IsCall(s: Step) {
    s.move.CallAppend? || s.move.CallPurge?
  }

  /** The move brings its call nearer to its return, leaves the other calls alone, and lets
      go of the lock when the call returns. */
  ghost predicate Advances(db: Db, s: Step)
    requires Enabled(db, s)
  {
    var db' := Apply(db, s);
    && (if s.w in db'.calls then s.w in db.calls && Left(db'.calls[s.w]) < Left(db.calls[s.w]) else db'.lock.None?)
    && forall w :: w in db.calls && w != s.w ==> w in db'.calls && db'.calls[w] == db.calls[w]
  }

  lemma MoveAdvances(db: Db, s: Step)
    requires Serial(db) && Enabled(db, s) && !IsCall(s)
    ensures Advances(db, s)
  {
  }

  lemma SomebodyMoves(db: Db)
    requires Serial(db) && db.calls != map[]
    ensures exists s :: Enabled(db, s) && !IsCall(s)
  {
    var w :| w in db.calls;
    var s := if db.lock.None? then Step(w, Lock)
             else Step(db.lock.value, if db.calls[db.lock.value].Closing? then Unlock else Fail);
    assert Enabled(db, s) && !IsCall(s);
  }

  /** No call waits for ever: while any is open some open call can move, each of its at most
      seven moves brings it nearer to its return, and every exit lets go of the lock. */
  lemma CallsReturn(db0: Db, steps: seq<Step>)
    requires Initial(db0) && Runs(db0, steps)
    ensures var db := EndState(db0, steps);
            && (db.calls != map[] ==> exists s :: Enabled(db, s) && !IsCall(s))
            && forall s :: Enabled(db, s) && !IsCall(s) ==> Advances(db, s)
  {
    InitialInv(db0);
    RunKeeps(db0, steps);
    var db := EndState(db0, steps);
    assert Serial(db);
    hide Serial, Enabled, Advances, IsCall, Runs, EndState, LogOk;
    if db.calls != map[] {
      SomebodyMoves(db);
    }
    forall s | Enabled(db, s) && !IsCall(s) ensures Advances(db, s) {
      MoveAdvances(db, s);
    }
  }

  /** Two calls are never inside their transactions together. */
  lemma TransactionsExclude(db0: Db, steps: seq<Step>, v: nat, w: nat)
    requires Initial(db0) && Runs(db0, steps)
    requires var db := EndState(db0, steps);
             v in db.calls && w in db.calls && HoldsLock(db.calls[v]) && HoldsLock(db.calls[w])
    ensures v == w
  {
    InitialInv(db0);
    RunKeeps(db0, steps);
  }
}
