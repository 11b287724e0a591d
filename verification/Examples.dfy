/** Concrete runs from an empty installation, showing that plausible claims about the queue
    are false: attempts within the limit, the cursor above what was delivered, and the
    cursor as a mark below which everything is delivered. */
module Examples {
  import opened Common
  import opened Queue
  import opened Protocol
  import opened Safety
  import opened Guarantees
  import L = Limits
  import M = Marks

  const EMPTY := State(0, map[], {}, map[], false, Idle, History({}, {}, {}, map[], 0, map[], map[], map[]))
  const SUB := Subscription("s", "all", [], [], "", Push, "http://endpoint", Active, 0)
  const K1 := Key("s", 1)
  const K2 := Key("s", 2)

  // ---- building runs ------------------------------------------------------------------

  lemma Extend(c: Config, s: State, acts: seq<Action>, a: Action)
    requires Runs(c, s, acts) && Enabled(c, EndState(c, s, acts), a)
    ensures Runs(c, s, acts + [a])
    ensures EndState(c, s, acts + [a]) == Apply(c, EndState(c, s, acts), a)
    decreases |acts|
  {
    if acts != [] {
      assert (acts + [a])[1..] == acts[1..] + [a];
      Extend(c, Apply(c, s, acts[0]), acts[1..], a);
    } else {
      assert acts + [a] == [a] && [a][1..] == [];
    }
  }

  /** The run leads from the empty installation to e. */
  predicate Reaches(c: Config, acts: seq<Action>, e: State) {
    Runs(c, EMPTY, acts) && EndState(c, EMPTY, acts) == e
  }

  lemma Do(c: Config, acts: seq<Action>, e: State, a: Action) returns (acts': seq<Action>, e': State)
    requires Reaches(c, acts, e) && Enabled(c, e, a)
    ensures Reaches(c, acts', e') && e' == Apply(c, e, a)
  {
    Extend(c, EMPTY, acts, a);
    acts', e' := acts + [a], Apply(c, e, a);
  }

  /** The parts of a state the examples speak of; events 1 and 2 are retained throughout. */
  datatype View = View(now: Time, q: Deliveries, subs: map<SubId, Subscription>, up: bool, pass: Pass)

  predicate Looks(s: State, v: View) {
    s.now == v.now && s.q == v.q && s.subs == v.subs && s.up == v.up && s.pass == v.pass && s.retained == {1, 2}
  }

  function With(pc: Pc): Pass { Draining(["s"], [pc], 1, 0, 0) }

  lemma Arrives(c: Config, acts0: seq<Action>, e0: State, v: View, n: nat) returns (acts: seq<Action>, e: State)
    requires Reaches(c, acts0, e0) && Looks(e0, v)
    ensures Reaches(c, acts, e) && Looks(e, v.(q := EnqueueRows(v.q, "s", [n])))
  {
    hide Reaches, EnqueueRows, Renew;
    acts, e := Do(c, acts0, e0, Env(Enqueue("s", [n])));
  }

  lemma Published(c: Config) returns (acts: seq<Action>, e: State)
    ensures Reaches(c, acts, e) && Looks(e, View(0, map[], map["s" := SUB], false, Idle))
  {
    acts, e := [], EMPTY;
    assert Reaches(c, acts, e);
    hide Reaches;
    acts, e := Do(c, acts, e, Env(Publish(1)));
    acts, e := Do(c, acts, e, Env(Publish(2)));
    assert e.retained == {1, 2};
    acts, e := Do(c, acts, e, Env(CreateSub("s", SUB)));
  }

  /** Two events, a subscription, one row n, and the process is up. */
  lemma Prepared(c: Config, n: nat) returns (acts: seq<Action>, e: State)
    ensures Reaches(c, acts, e)
    ensures Looks(e, View(0, map[Key("s", n) := FRESH], map["s" := SUB], true, Idle))
  {
    hide Reaches, Renew;
    acts, e := Published(c);
    acts, e := Arrives(c, acts, e, View(0, map[], map["s" := SUB], false, Idle), n);
    ghost var q := e.q;
    assert q == map[Key("s", n) := FRESH];
    acts, e := Do(c, acts, e, Proc(Boot(true)));
    assert e.q == q;
  }

  /** A pass over the one subscription starts and its worker finds it active. */
  lemma Started(c: Config, acts0: seq<Action>, e0: State, v: View) returns (acts: seq<Action>, e: State)
    requires ValidConfig(c) && Reaches(c, acts0, e0) && Looks(e0, v) && v.up && v.pass.Idle?
    requires v.subs == map["s" := SUB] && DueSubs(v.q, v.now) == {"s"}
    ensures Reaches(c, acts, e) && Looks(e, v.(pass := With(Loop)))
  {
    hide Reaches;
    assert DuePage(v.q, v.now, c.concurrency * 4, ["s"]);
    hide DuePage, DueSubs;
    acts, e := Do(c, acts0, e0, Proc(BeginPass(["s"])));
    acts, e := Do(c, acts, e, Proc(Spawn));
    acts, e := Do(c, acts, e, Work(0, Lookup(true)));
    assert [Start][0 := Loop] == [Loop];
  }

  function LeaseOf(q: Deliveries, seqs: seq<nat>): Lease
    requires seqs != [] && Key("s", seqs[0]) in q
  {
    Lease(seqs, q[Key("s", seqs[0])].attempt)
  }

  /** The worker selects and leases what is due. */
  lemma LeasesBatch(c: Config, acts0: seq<Action>, e0: State, v: View, seqs: seq<nat>)
    returns (acts: seq<Action>, e: State)
    requires Reaches(c, acts0, e0) && Looks(e0, v) && v.pass == With(Loop)
    requires DueBatch(v.q, "s", v.now, c.batchSize) == seqs != []
    ensures Reaches(c, acts, e)
    ensures Looks(e, v.(q := LeaseRows(v.q, "s", seqs), pass := With(Leased(LeaseOf(v.q, seqs)))))
  {
    hide Reaches, Bump, LeaseRows, DueBatch;
    acts, e := Do(c, acts0, e0, Work(0, Select));
    assert e.pass.workers == [Selected(LeaseOf(v.q, seqs))];
    acts, e := Do(c, acts, e, Work(0, LeaseWrite(Written)));
    assert e.pass.workers == [Leased(LeaseOf(v.q, seqs))];
  }

  /** The batch is posted and answered. */
  lemma IsAnswered(c: Config, acts0: seq<Action>, e0: State, v: View, b: Lease, answer: Answer)
    returns (acts: seq<Action>, e: State)
    requires Reaches(c, acts0, e0) && Looks(e0, v) && v.pass == With(Leased(b))
    requires Ascending(b.seqs) && forall n :: n in b.seqs ==> n in {1, 2}
    ensures Reaches(c, acts, e) && Looks(e, v.(pass := With(Posted(b, answer))))
  {
    PayloadCorresponds({1, 2}, b.seqs);
    hide Reaches, Payload, BatchKeys, LeaseRows, Elements;
    acts, e := Do(c, acts0, e0, Work(0, Fetch(true)));
    assert e.pass.workers == [Fetched(b, b.seqs)];
    acts, e := Do(c, acts, e, Work(0, Post(answer)));
    assert e.pass.workers == [Posted(b, answer)];
  }

  /** The worker leases what is due, the endpoint fails, and the rows wait until `at`. */
  lemma FailsOnce(c: Config, acts0: seq<Action>, e0: State, v: View, seqs: seq<nat>, at: Time)
    returns (acts: seq<Action>, e: State)
    requires Reaches(c, acts0, e0) && Looks(e0, v) && v.pass == With(Loop)
    requires DueBatch(v.q, "s", v.now, c.batchSize) == seqs != [] && forall n :: n in seqs ==> n in {1, 2}
    requires !Exhausted(v.q[Key("s", seqs[0])].attempt, c.maxAttempts)
    ensures Reaches(c, acts, e)
    ensures Looks(e, v.(q := FailRows(LeaseRows(v.q, "s", seqs), "s", seqs, Some(at), false)))
  {
    hide Reaches, LeaseRows, FailRows;
    var b := LeaseOf(v.q, seqs);
    var leased := v.(q := LeaseRows(v.q, "s", seqs), pass := With(Leased(b)));
    acts, e := LeasesBatch(c, acts0, e0, v, seqs);
    acts, e := IsAnswered(c, acts, e, leased, b, Retryable);
    acts, e := Do(c, acts, e, Work(0, Record(true, at)));
    assert e.pass.workers == [Loop];
  }

  lemma Ticks(c: Config, acts0: seq<Action>, e0: State, v: View, t: Time) returns (acts: seq<Action>, e: State)
    requires Reaches(c, acts0, e0) && Looks(e0, v) && v.now <= t
    ensures Reaches(c, acts, e) && Looks(e, v.(now := t))
  {
    hide Reaches;
    acts, e := Do(c, acts0, e0, Env(Tick(t)));
  }

  /** A due batch is recognised by its elements. */
  lemma BatchIs(q: Deliveries, sub: SubId, now: Time, limit: nat, seqs: seq<nat>)
    requires 0 < limit && |seqs| <= limit && Ascending(seqs)
    requires forall n :: n in DueSeqs(q, sub, now) <==> n in seqs
    ensures DueBatch(q, sub, now, limit) == seqs
  {
    AscendingCard(seqs);
    assert Elements(seqs) == DueSeqs(q, sub, now);
    AscendingEqual(Sorted(DueSeqs(q, sub, now)), seqs);
  }

  // ---- attempt <= MaxAttempts, because the head is judged -----------------------------

  const LIMIT2 := Config(50, 2, 4)

  function Pair(a1: nat, r1: Option<Time>, a2: nat, r2: Option<Time>, status: Status): Deliveries {
    map[K1 := Row(a1, status, r1), K2 := Row(a2, status, r2)]
  }

  lemma PairIsDue(a1: nat, r1: Option<Time>, a2: nat, r2: Option<Time>, now: Time)
    requires Due(Row(a1, Pending, r1), now) && Due(Row(a2, Pending, r2), now)
    ensures DueBatch(Pair(a1, r1, a2, r2, Pending), "s", now, 50) == [1, 2]
  {
    BatchIs(Pair(a1, r1, a2, r2, Pending), "s", now, 50, [1, 2]);
  }

  lemma PairLeased(a1: nat, r1: Option<Time>, a2: nat, r2: Option<Time>, at: Time)
    ensures LeaseRows(Pair(a1, r1, a2, r2, Pending), "s", [1, 2]) == Pair(a1 + 1, r1, a2 + 1, r2, Inflight)
    ensures FailRows(Pair(a1 + 1, r1, a2 + 1, r2, Inflight), "s", [1, 2], Some(at), false)
            == Pair(a1 + 1, Some(at), a2 + 1, Some(at), Pending)
  {
    assert 1 in [1, 2] && 2 in [1, 2];
  }

  /** Row 2 is due alone, and fails. */
  lemma TwoFailsAlone() returns (acts: seq<Action>, e: State)
    ensures Reaches(LIMIT2, acts, e)
    ensures Looks(e, View(0, map[K2 := Row(1, Pending, Some(1))], map["s" := SUB], true, With(Loop)))
  {
    hide Reaches, LeaseRows, FailRows, DueBatch;
    var v := View(0, map[K2 := FRESH], map["s" := SUB], true, Idle);
    acts, e := Prepared(LIMIT2, 2);
    OneIsDue(v.q, 2, 0);
    acts, e := Started(LIMIT2, acts, e, v);
    OneFails(2, FRESH, 1);
    acts, e := FailsOnce(LIMIT2, acts, e, v.(pass := With(Loop)), [2], 1);
  }

  lemma OneIsDue(q: Deliveries, n: nat, now: Time)
    requires q.Keys == {Key("s", n)} && Due(q[Key("s", n)], now)
    ensures DueSubs(q, now) == {"s"} && DueBatch(q, "s", now, 50) == [n]
  {
  }

  lemma OneFails(n: nat, r: Row, at: Time)
    requires r.status.Pending?
    ensures LeaseRows(map[Key("s", n) := r], "s", [n]) == map[Key("s", n) := Row(r.attempt + 1, Inflight, r.nextRetry)]
    ensures FailRows(map[Key("s", n) := Row(r.attempt + 1, Inflight, r.nextRetry)], "s", [n], Some(at), false)
            == map[Key("s", n) := Row(r.attempt + 1, Pending, Some(at))]
  {
  }

  /** The lower row 1 arrives and heads the batch; both fail and wait. */
  lemma PairFails() returns (acts: seq<Action>, e: State)
    ensures Reaches(LIMIT2, acts, e)
    ensures Looks(e, View(1, Pair(1, Some(2), 2, Some(2), Pending), map["s" := SUB], true, With(Loop)))
  {
    hide Reaches, LeaseRows, FailRows, DueBatch;
    var v := View(0, map[K2 := Row(1, Pending, Some(1))], map["s" := SUB], true, With(Loop));
    acts, e := TwoFailsAlone();
    acts, e := Arrives(LIMIT2, acts, e, v, 1);
    var pair := Pair(0, None, 1, Some(1), Pending);
    assert EnqueueRows(v.q, "s", [1]) == pair;
    acts, e := Ticks(LIMIT2, acts, e, v.(q := pair), 1);
    PairIsDue(0, None, 1, Some(1), 1);
    PairLeased(0, None, 1, Some(1), 2);
    acts, e := FailsOnce(LIMIT2, acts, e, v.(now := 1, q := pair), [1, 2], 2);
  }

  /** With MaxAttempts 2, row 2 is leased a third time: the younger row 1 heads its batches. */
  lemma AttemptExceedsLimit() returns (acts: seq<Action>, e: State)
    ensures ValidConfig(LIMIT2) && Initial(EMPTY) && Reaches(LIMIT2, acts, e)
    ensures K2 in e.q && e.q[K2].attempt > LIMIT2.maxAttempts && !L.Within(LIMIT2, e.q)
  {
    hide Reaches, LeaseRows, FailRows, DueBatch;
    var v := View(1, Pair(1, Some(2), 2, Some(2), Pending), map["s" := SUB], true, With(Loop));
    acts, e := PairFails();
    acts, e := Ticks(LIMIT2, acts, e, v, 2);
    PairIsDue(1, Some(2), 2, Some(2), 2);
    PairLeased(1, Some(2), 2, Some(2), 0);
    acts, e := LeasesBatch(LIMIT2, acts, e, v.(now := 2), [1, 2]);
    assert e.q == Pair(2, Some(2), 3, Some(2), Inflight);
  }

  // ---- attempt <= MaxAttempts, because recovery keeps attempts ------------------------

  const LIMIT1 := Config(50, 1, 4)

  /** With MaxAttempts 1, a lone row that is leased, crashed over, recovered and leased again
      reaches attempt 2. */
  lemma RecoveredRowExceedsLimit() returns (acts: seq<Action>, e: State)
    ensures ValidConfig(LIMIT1) && Initial(EMPTY) && Reaches(LIMIT1, acts, e)
    ensures e.q.Keys == {K1} && e.q[K1].attempt > LIMIT1.maxAttempts && !L.Within(LIMIT1, e.q)
  {
    hide Reaches, LeaseRows, FailRows, DueBatch, Renew;
    var v := View(0, map[K1 := FRESH], map["s" := SUB], true, Idle);
    acts, e := Prepared(LIMIT1, 1);
    OneIsDue(v.q, 1, 0);
    acts, e := Started(LIMIT1, acts, e, v);
    OneFails(1, FRESH, 0);
    acts, e := LeasesBatch(LIMIT1, acts, e, v.(pass := With(Loop)), [1]);
    acts, e := Do(LIMIT1, acts, e, Proc(Crash));
    acts, e := Do(LIMIT1, acts, e, Proc(Boot(true)));
    var back := map[K1 := Row(1, Pending, None)];
    assert e.q == back;
    OneIsDue(back, 1, 0);
    acts, e := Started(LIMIT1, acts, e, v.(q := back));
    OneFails(1, Row(1, Pending, None), 0);
    acts, e := LeasesBatch(LIMIT1, acts, e, v.(q := back, pass := With(Loop)), [1]);
  }

  // ---- the cursor as a mark -----------------------------------------------------------

  /** Row 1 fails and waits; row 2 arrives, is delivered, and takes the cursor past it. */
  lemma CursorSkipsWaitingRow() returns (acts: seq<Action>, e: State)
    ensures ValidConfig(LIMIT2) && Initial(EMPTY) && Reaches(LIMIT2, acts, e)
    ensures "s" in e.subs && e.subs["s"].cursor == 2 && K1 in e.q && e.q[K1].status.Pending?
    ensures !M.Marked(e)
  {
    hide Reaches, LeaseRows, FailRows, DueBatch;
    var v := View(0, map[K1 := FRESH], map["s" := SUB], true, Idle);
    acts, e := Prepared(LIMIT2, 1);
    OneIsDue(v.q, 1, 0);
    acts, e := Started(LIMIT2, acts, e, v);
    OneFails(1, FRESH, 1);
    acts, e := FailsOnce(LIMIT2, acts, e, v.(pass := With(Loop)), [1], 1);
    var waiting := map[K1 := Row(1, Pending, Some(1))];
    acts, e := Arrives(LIMIT2, acts, e, v.(q := waiting, pass := With(Loop)), 2);
    var both := Pair(1, Some(1), 0, None, Pending);
    assert EnqueueRows(waiting, "s", [2]) == both;
    acts, e := SecondDelivered(acts, e, v.(q := both, pass := With(Loop)));
    assert M.Unsettled(e, K1);
  }

  lemma SecondDelivered(acts0: seq<Action>, e0: State, v: View) returns (acts: seq<Action>, e: State)
    requires Reaches(LIMIT2, acts0, e0) && Looks(e0, v)
    requires v == View(0, Pair(1, Some(1), 0, None, Pending), map["s" := SUB], true, With(Loop))
    ensures Reaches(LIMIT2, acts, e)
    ensures "s" in e.subs && e.subs["s"].cursor == 2 && K1 in e.q && e.q[K1] == Row(1, Pending, Some(1))
  {
    hide Reaches;
    BatchIs(v.q, "s", 0, 50, [2]);
    hide DueBatch;
    acts, e := LeasesBatch(LIMIT2, acts0, e0, v, [2]);
    var b := LeaseOf(v.q, [2]);
    var leased := v.(q := LeaseRows(v.q, "s", [2]), pass := With(Leased(b)));
    acts, e := IsAnswered(LIMIT2, acts, e, leased, b, Ack);
    acts, e := Do(LIMIT2, acts, e, Work(0, Record(true, 0)));
  }

  // ---- the cursor covers what was delivered -------------------------------------------

  /** A worker looks its subscription up once. The subscription is deleted, a late fan-out
      enqueues event 2 all the same, the worker delivers it, and a new subscription of the
      same id starts with cursor 0 below the delivered row. */
  lemma CursorCanLag() returns (acts: seq<Action>, e: State)
    ensures ValidConfig(LIMIT2) && Initial(EMPTY) && Reaches(LIMIT2, acts, e)
    ensures !Covered(e)
  {
    acts, e := Orphaned();
    hide Reaches, DueBatch;
    var v := View(0, map[K2 := FRESH], map[], true, With(Loop));
    OneIsDue(v.q, 2, 0);
    acts, e := LeasesBatch(LIMIT2, acts, e, v, [2]);
    var b := LeaseOf(v.q, [2]);
    var leased := v.(q := LeaseRows(v.q, "s", [2]), pass := With(Leased(b)));
    acts, e := IsAnswered(LIMIT2, acts, e, leased, b, Ack);
    acts, e := Do(LIMIT2, acts, e, Work(0, Record(true, 0)));
    assert IsDelivered(e, K2);
    acts, e := Do(LIMIT2, acts, e, Env(CreateSub("s", SUB)));
    assert IsDelivered(e, K2);
  }

  lemma Orphaned() returns (acts: seq<Action>, e: State)
    ensures Reaches(LIMIT2, acts, e)
    ensures Looks(e, View(0, map[K2 := FRESH], map[], true, With(Loop)))
  {
    hide Reaches, Renew;
    var v := View(0, map[K1 := FRESH], map["s" := SUB], true, Idle);
    acts, e := Prepared(LIMIT2, 1);
    OneIsDue(v.q, 1, 0);
    acts, e := Started(LIMIT2, acts, e, v);
    acts, e := Do(LIMIT2, acts, e, Env(DeleteSub("s")));
    assert e.q == map[] && e.subs == map[];
    acts, e := Arrives(LIMIT2, acts, e, View(0, map[], map[], true, With(Loop)), 2);
    assert e.q == map[K2 := FRESH];
  }
}
