/** What one deliverSubscription call does to the backlog it finds: nothing outside it
    changes, and while no retry falls due it goes out in order, each row once. */
module Backlog {
  import opened Common
  import opened Queue
  import opened EventLog
  import opened Store
  import opened Dispatcher
  import P = Protocol
  import B = Budget

  function Pending(q: Deliveries, id: SubId): (r: set<nat>)
    ensures forall n :: n in r <==> Key(id, n) in q && q[Key(id, n)].status.Pending?
  {
    set k | k in q && k.sub == id && q[k].status.Pending? :: k.seqNo
  }

  /** The rows of the settled batches, in the order they were settled. */
  function Taken(steps: seq<Step>): seq<nat> {
    if steps == [] then [] else steps[0].seqs + Taken(steps[1..])
  }

  /** ... and of those that were posted. */
  function Posted(steps: seq<Step>): seq<nat> {
    if steps == [] then [] else (if steps[0].posted then steps[0].seqs else []) + Posted(steps[1..])
  }

  ghost predicate ClockAscends(inputs: nat -> Input) {
    forall i: nat, j: nat :: i <= j ==> inputs(i).now <= inputs(j).now
  }

  /** A call is its first turn, followed by the call that starts at the next one. */
  lemma CallUnfolds(s: Settings, events: seq<Event>, id: SubId, t: Tables, inputs: nat -> Input, i: nat)
    requires ValidSettings(s)
    ensures var (turn, t') := Turned(s, events, id, t, inputs(i));
            var call := CallOf(s, events, id, t, inputs, i);
            if turn.Went? then
              var rest := CallOf(s, events, id, t', inputs, i + 1);
              call == Call([turn.step] + rest.steps, rest.drained, rest.end, rest.last)
            else call == Call([], turn.Drained?, t', i)
  {
  }

  lemma Later(inputs: nat -> Input, i: nat, j: nat)
    requires ClockAscends(inputs) && i <= j
    ensures inputs(i).now <= inputs(j).now
  {
  }

  // ---- what a call leaves alone -------------------------------------------------------

  /** Rows of other subscriptions and rows that are not pending stay as they are, no row
      comes or goes, and of the subscriptions only this one's cursor may have risen. */
  ghost predicate Confined(t: Tables, t': Tables, id: SubId) {
    && t'.q.Keys == t.q.Keys
    && (forall k :: k in t.q && (k.sub != id || !t.q[k].status.Pending?) ==> t'.q[k] == t.q[k])
    && (forall k :: k in t.q ==> t.q[k].attempt <= t'.q[k].attempt)
    && OnlyCursor(t.subs, t'.subs, id)
  }

  ghost predicate OnlyCursor(subs: map<SubId, Subscription>, subs': map<SubId, Subscription>, id: SubId) {
    && subs'.Keys == subs.Keys
    && forall x :: x in subs ==>
         && subs'[x] == subs[x].(cursor := subs'[x].cursor)
         && (if x == id then subs[x].cursor <= subs'[x].cursor else subs[x].cursor == subs'[x].cursor)
  }

  /** Beyond the batch nothing changes, and within it no attempt. */
  ghost predicate OnlyBatch(t: Tables, t': Tables, id: SubId, seqs: seq<nat>) {
    && t'.q.Keys == t.q.Keys
    && (forall k :: k in t.q && !InBatch(k, id, seqs) ==> t'.q[k] == t.q[k])
    && (forall k :: k in t.q ==> t'.q[k].attempt == t.q[k].attempt)
    && OnlyCursor(t.subs, t'.subs, id)
  }

  lemma SettledConfined(s: Settings, events: seq<Event>, id: SubId, t: Tables, b: Lease, x: Input)
    requires ValidSettings(s) && b.seqs != []
    ensures OnlyBatch(t, Settled(s, events, id, t, b, x).1, id, b.seqs)
  {
    hide AllRetained, RetryTime, P.Buries;
  }

  lemma LeasedConfined(t: Tables, t': Tables, id: SubId, seqs: seq<nat>)
    requires forall n :: n in seqs ==> n in Pending(t.q, id)
    requires OnlyBatch(t.(q := LeaseRows(t.q, id, seqs)), t', id, seqs)
    ensures Confined(t, t', id)
  {
    hide OnlyCursor;
  }

  lemma TurnConfined(s: Settings, events: seq<Event>, id: SubId, t: Tables, x: Input)
    requires ValidSettings(s)
    ensures Confined(t, Turned(s, events, id, t, x).1, id)
  {
    var seqs := DueBatch(t.q, id, x.now, s.config.batchSize);
    var leased := t.(q := LeaseRows(t.q, id, seqs));
    assert OnlyBatch(leased, leased, id, seqs);
    LeasedConfined(t, leased, id, seqs);
    if seqs != [] {
      SettledConfined(s, events, id, leased, HeadLease(t.q, id, seqs), x);
      hide OnlyBatch, DueBatch, LeaseRows, Settled;
      LeasedConfined(t, Settled(s, events, id, leased, HeadLease(t.q, id, seqs), x).1, id, seqs);
    }
    assert Confined(t, t, id);
    hide Confined, DueBatch, LeaseRows, Settled;
  }

  lemma ConfinedAgain(t: Tables, t': Tables, t'': Tables, id: SubId)
    requires Confined(t, t', id) && Confined(t', t'', id)
    ensures Confined(t, t'', id)
  {
  }

  lemma {:induction false} CallConfined(s: Settings, events: seq<Event>, id: SubId, t: Tables,
                                        inputs: nat -> Input, i: nat)
    requires ValidSettings(s)
    ensures Confined(t, CallOf(s, events, id, t, inputs, i).end, id)
    decreases |B.PendingTokens(s.config, t.q)|
  {
    hide Turned, CallOf, Confined, B.PendingTokens, ValidSettings;
    var (turn, t') := Turned(s, events, id, t, inputs(i));
    TurnConfined(s, events, id, t, inputs(i));
    CallUnfolds(s, events, id, t, inputs, i);
    if turn.Went? {
      TurnSpends(s, events, id, t, inputs(i));
      CallConfined(s, events, id, t', inputs, i + 1);
      ConfinedAgain(t, t', CallOf(s, events, id, t', inputs, i + 1).end, id);
    }
  }

  // ---- how a call ends ----------------------------------------------------------------

  /** A call that ends with an error met a cancelled context, a failed lease or fetch, or a
      failed write of a batch with an event gone. */
  predicate Fails(x: Input, mayLack: bool) {
    x.cancelled || x.leaseFails || x.fetchFails || (x.writeFails && mayLack)
  }

  ghost predicate LacksEvents(events: seq<Event>, q: Deliveries, id: SubId) {
    exists n :: n in Pending(q, id) && n !in Retained(events)
  }

  /** Without such a failure the call drains: nothing of the subscription is due when it
      ends, however the endpoint answered. */
  lemma {:induction false} CallDrains(s: Settings, events: seq<Event>, id: SubId, t: Tables,
                                      inputs: nat -> Input, i: nat)
    requires ValidSettings(s)
    ensures var call := CallOf(s, events, id, t, inputs, i);
            && (call.drained ==> DueSeqs(call.end.q, id, inputs(call.last).now) == {})
            && (!call.drained ==> Fails(inputs(call.last), LacksEvents(events, t.q, id)))
    decreases |B.PendingTokens(s.config, t.q)|
  {
    hide CallOf, Turned, DueSeqs, LacksEvents, Confined, B.PendingTokens, ValidSettings;
    var x := inputs(i);
    var (turn, t') := Turned(s, events, id, t, x);
    CallUnfolds(s, events, id, t, inputs, i);
    if turn.Went? {
      TurnConfined(s, events, id, t, x);
      TurnSpends(s, events, id, t, x);
      CallDrains(s, events, id, t', inputs, i + 1);
      LackedBefore(events, t, t', id);
    } else {
      LastTurn(s, events, id, t, x);
    }
  }

  lemma LackedBefore(events: seq<Event>, t: Tables, t': Tables, id: SubId)
    requires Confined(t, t', id)
    ensures LacksEvents(events, t'.q, id) ==> LacksEvents(events, t.q, id)
  {
    assert Pending(t'.q, id) <= Pending(t.q, id);
  }

  lemma LastTurn(s: Settings, events: seq<Event>, id: SubId, t: Tables, x: Input)
    requires ValidSettings(s) && !Turned(s, events, id, t, x).0.Went?
    ensures var (turn, t') := Turned(s, events, id, t, x);
            && (turn.Drained? ==> DueSeqs(t'.q, id, x.now) == {})
            && (turn.Stopped? ==> Fails(x, LacksEvents(events, t.q, id)))
  {
  }

  /** Batches are non-empty and within the size. */
  lemma {:induction false} CallCuts(s: Settings, events: seq<Event>, id: SubId, t: Tables,
                                    inputs: nat -> Input, i: nat)
    requires ValidSettings(s)
    ensures var call := CallOf(s, events, id, t, inputs, i);
            i <= call.last && forall st :: st in call.steps ==> 0 < |st.seqs| <= s.config.batchSize
    decreases |B.PendingTokens(s.config, t.q)|
  {
    hide CallOf, Turned, SettledRows, DueBatch, B.PendingTokens, ValidSettings;
    var x := inputs(i);
    var (turn, t') := Turned(s, events, id, t, x);
    CallUnfolds(s, events, id, t, inputs, i);
    if turn.Went? {
      TurnSettles(s, events, id, t, x);
      TurnSpends(s, events, id, t, x);
      BatchIsLowestDue(t.q, id, x.now, s.config.batchSize);
      CallCuts(s, events, id, t', inputs, i + 1);
      Sized(s);
    }
  }

  lemma Sized(s: Settings)
    requires ValidSettings(s)
    ensures s.config.batchSize > 0
  {
  }

  // ---- in order -----------------------------------------------------------------------

  /** What is left of the backlog is due; any other pending row waits beyond the horizon. */
  ghost predicate Waiting(q: Deliveries, id: SubId, rest: seq<nat>, now: Time, horizon: Time) {
    && (forall n :: n in rest ==> Key(id, n) in q && Due(q[Key(id, n)], now))
    && forall n :: n in Pending(q, id) && n !in rest ==>
         var r := q[Key(id, n)].nextRetry; r.Some? && r.value > horizon
  }

  lemma RestIsDue(q: Deliveries, id: SubId, rest: seq<nat>, now: Time, horizon: Time)
    requires Waiting(q, id, rest, now, horizon) && now <= horizon
    ensures DueSeqs(q, id, now) == Elements(rest)
  {
  }

  /** Until a retry falls due, the due batch is the front of the rest. */
  lemma FrontIsDue(q: Deliveries, id: SubId, rest: seq<nat>, now: Time, horizon: Time, limit: nat)
    requires Waiting(q, id, rest, now, horizon) && Ascending(rest) && now <= horizon && limit > 0
    ensures DueBatch(q, id, now, limit) == rest[..Min(|rest|, limit)]
  {
    RestIsDue(q, id, rest, now, horizon);
    hide Waiting, DueSeqs, Elements, Ascending;
    assert Elements(Sorted(Elements(rest))) == Elements(rest);
    AscendingSame(Sorted(DueSeqs(q, id, now)), rest);
  }

  predicate Beyond(retry: Option<Time>, horizon: Time) {
    retry.Some? ==> retry.value > horizon
  }

  /** Settling the front leaves the remainder waiting its turn. */
  lemma SettleFront(q: Deliveries, q': Deliveries, id: SubId, rest: seq<nat>, now: Time, later: Time,
                    horizon: Time, b: Lease, retry: Option<Time>, c: P.Config)
    requires Waiting(q, id, rest, now, horizon) && Ascending(rest) && now <= later && Beyond(retry, horizon)
    requires |b.seqs| <= |rest| && b.seqs == rest[..|b.seqs|]
    requires SettledRows(LeaseRows(q, id, b.seqs), q', id, b, retry, c)
    ensures Waiting(q', id, rest[|b.seqs|..], later, horizon)
  {
    var left := rest[|b.seqs|..];
    assert rest == b.seqs + left;
    forall n: nat ensures (n in rest <==> n in b.seqs || n in left) && !(n in b.seqs && n in left) {}
    hide Ascending;
    forall n | n in left ensures Key(id, n) in q' && Due(q'[Key(id, n)], later) {
      assert n in rest && n !in b.seqs;
      assert q'[Key(id, n)] == q[Key(id, n)];
    }
    forall n | n in Pending(q', id) && n !in left
      ensures var r := q'[Key(id, n)].nextRetry; r.Some? && r.value > horizon
    {
      assert n !in b.seqs ==> n in Pending(q, id) && n !in rest;
    }
  }

  /** A turn that goes on takes the front of the rest. */
  lemma TurnInOrder(s: Settings, events: seq<Event>, id: SubId, t: Tables, x: Input,
                    rest: seq<nat>, later: Time, horizon: Time)
    requires ValidSettings(s) && Turned(s, events, id, t, x).0.Went?
    requires Waiting(t.q, id, rest, x.now, horizon) && Ascending(rest) && x.now <= horizon && x.now <= later
    requires Beyond(Turned(s, events, id, t, x).0.step.retry, horizon)
    ensures var (turn, t') := Turned(s, events, id, t, x);
            var k := |turn.step.seqs|;
            && k <= |rest| && turn.step.seqs == rest[..k]
            && Waiting(t'.q, id, rest[k..], later, horizon)
            && (turn.step.posted <==> AllRetained(events, rest[..k]))
  {
    var (turn, t') := Turned(s, events, id, t, x);
    var seqs := DueBatch(t.q, id, x.now, s.config.batchSize);
    TurnSettles(s, events, id, t, x);
    assert turn.step.posted <==> AllRetained(events, seqs);
    hide Turned, SettledRows, LeaseRows;
    FrontIsDue(t.q, id, rest, x.now, horizon, s.config.batchSize);
    hide DueBatch, Waiting;
    SettleFront(t.q, t'.q, id, rest, x.now, later, horizon, HeadLease(t.q, id, seqs), turn.step.retry, s.config);
  }

  ghost predicate NoneFallsDue(steps: seq<Step>, horizon: Time) {
    forall st :: st in steps ==> Beyond(st.retry, horizon)
  }

  /** The call took the front of `rest` in order, all of it if it drained, and posted what it
      took if the events are there. */
  ghost predicate Ordered(events: seq<Event>, call: Call, rest: seq<nat>) {
    && Taken(call.steps) <= rest
    && (call.drained ==> Taken(call.steps) == rest)
    && (AllRetained(events, rest) ==> Posted(call.steps) == Taken(call.steps))
  }

  lemma {:induction false} CallInOrder(s: Settings, events: seq<Event>, id: SubId, t: Tables,
                                       inputs: nat -> Input, i: nat, rest: seq<nat>, horizon: Time)
    requires ValidSettings(s) && ClockAscends(inputs) && Ascending(rest)
    requires Waiting(t.q, id, rest, inputs(i).now, horizon)
    requires var call := CallOf(s, events, id, t, inputs, i);
             horizon == inputs(call.last).now && NoneFallsDue(call.steps, horizon)
    ensures Ordered(events, CallOf(s, events, id, t, inputs, i), rest)
    decreases |B.PendingTokens(s.config, t.q)|
  {
    hide CallOf, Turned, Ascending, Retained, B.PendingTokens, ValidSettings, ClockAscends, Waiting, NoneFallsDue;
    var x := inputs(i);
    var (turn, t') := Turned(s, events, id, t, x);
    var call := CallOf(s, events, id, t, inputs, i);
    CallUnfolds(s, events, id, t, inputs, i);
    CallCuts(s, events, id, t, inputs, i);
    Later(inputs, i, call.last);
    Later(inputs, i, i + 1);
    if turn.Went? {
      hide AllRetained, Ordered;
      var k, after := |turn.step.seqs|, CallOf(s, events, id, t', inputs, i + 1);
      NoneOfTheRest(turn.step, after.steps, horizon);
      TurnSpends(s, events, id, t, x);
      TurnInOrder(s, events, id, t, x, rest, inputs(i + 1).now, horizon);
      CutOff(rest, k);
      CallInOrder(s, events, id, t', inputs, i + 1, rest[k..], horizon);
      Prepend(events, turn.step, after, call, rest);
    } else if turn.Drained? {
      DrainedNow(s, events, id, t, x);
      FrontIsDue(t.q, id, rest, x.now, horizon, s.config.batchSize);
    }
  }

  lemma NoneOfTheRest(step: Step, steps: seq<Step>, horizon: Time)
    requires NoneFallsDue([step] + steps, horizon)
    ensures Beyond(step.retry, horizon) && NoneFallsDue(steps, horizon)
  {
  }

  lemma DrainedNow(s: Settings, events: seq<Event>, id: SubId, t: Tables, x: Input)
    requires ValidSettings(s) && Turned(s, events, id, t, x).0.Drained?
    ensures DueBatch(t.q, id, x.now, s.config.batchSize) == [] && s.config.batchSize > 0
  {
    hide DueBatch, LeaseRows, Retained;
  }

  lemma CutOff(rest: seq<nat>, k: nat)
    requires k <= |rest| && Ascending(rest)
    ensures Ascending(rest[k..])
  {
  }

  lemma Prepend(events: seq<Event>, step: Step, after: Call, call: Call, rest: seq<nat>)
    requires call.steps == [step] + after.steps && call.drained == after.drained
    requires |step.seqs| <= |rest| && step.seqs == rest[..|step.seqs|]
    requires step.posted <==> AllRetained(events, step.seqs)
    requires Ordered(events, after, rest[|step.seqs|..])
    ensures Ordered(events, call, rest)
  {
  }

  ghost predicate AllDue(q: Deliveries, id: SubId, now: Time) {
    forall n :: n in Pending(q, id) ==> Due(q[Key(id, n)], now)
  }

  lemma BacklogWaits(q: Deliveries, id: SubId, now: Time, horizon: Time)
    requires AllDue(q, id, now)
    ensures Waiting(q, id, Sorted(Pending(q, id)), now, horizon)
  {
  }

  /** Resume drains the backlog in order. If every pending row is due when the call starts
      and no retry time set in it falls due before it ends, the batches settled, each within
      the size, are the backlog cut from the front in order, each row once. They are all of
      it if the call drains, which it does unless one of the listed failures ends it; and
      they are all posted if the events are retained. */
  lemma ResumeDrainsInOrder(s: Settings, events: seq<Event>, id: SubId, t: Tables, inputs: nat -> Input)
    requires ValidSettings(s) && ClockAscends(inputs) && AllDue(t.q, id, inputs(0).now)
    requires var call := CallOf(s, events, id, t, inputs, 0); NoneFallsDue(call.steps, inputs(call.last).now)
    ensures var call, backlog := CallOf(s, events, id, t, inputs, 0), Sorted(Pending(t.q, id));
            && (forall st :: st in call.steps ==> 0 < |st.seqs| <= s.config.batchSize)
            && Taken(call.steps) <= backlog
            && (call.drained ==> Taken(call.steps) == backlog)
            && (!call.drained ==> Fails(inputs(call.last), LacksEvents(events, t.q, id)))
            && (AllRetained(events, backlog) ==> Posted(call.steps) == Taken(call.steps))
  {
    var call, backlog := CallOf(s, events, id, t, inputs, 0), Sorted(Pending(t.q, id));
    hide CallOf, Waiting, Pending, AllDue, AllRetained, NoneFallsDue, ClockAscends, Ascending, Taken, Posted, Fails,
         DueSeqs;
    BacklogWaits(t.q, id, inputs(0).now, inputs(call.last).now);
    CallCuts(s, events, id, t, inputs, 0);
    CallDrains(s, events, id, t, inputs, 0);
    CallInOrder(s, events, id, t, inputs, 0, backlog, inputs(call.last).now);
  }

  // ---- an endpoint that accepts everything --------------------------------------------

  /** Nothing fails and the endpoint answers 2xx. */
  predicate Smooth(x: Input) {
    !x.cancelled && !x.leaseFails && !x.fetchFails && !x.writeFails && x.answer.Ack?
  }

  /** The given pending rows are delivered at the next attempt; no other row has changed; and
      the cursor has passed them. */
  ghost predicate DeliveredAll(t: Tables, t': Tables, id: SubId, taken: seq<nat>) {
    && t'.q.Keys == t.q.Keys
    && (forall n :: n in taken ==> n in Pending(t.q, id))
    && (forall k :: k in t.q ==>
          t'.q[k] == if InBatch(k, id, taken) then Row(t.q[k].attempt + 1, Delivered, None) else t.q[k])
    && (id in t.subs ==>
          && id in t'.subs
          && (forall n :: n in taken ==> n <= t'.subs[id].cursor)
          && t.subs[id].cursor <= t'.subs[id].cursor
          && (t'.subs[id].cursor == t.subs[id].cursor || t'.subs[id].cursor in taken))
  }

  lemma DeliverLeased(t: Tables, id: SubId, seqs: seq<nat>)
    requires seqs != [] && Ascending(seqs) && forall n :: n in seqs ==> n in Pending(t.q, id)
    ensures var q' := DeliverRows(LeaseRows(t.q, id, seqs), id, seqs);
            DeliveredAll(t, Tables(q', P.AdvanceCursor(t.subs, id, seqs[|seqs| - 1])), id, seqs)
  {
    FrontElements(seqs);
  }

  lemma SmoothTurn(s: Settings, events: seq<Event>, id: SubId, t: Tables, x: Input)
    requires ValidSettings(s) && Smooth(x) && !LacksEvents(events, t.q, id)
    requires Turned(s, events, id, t, x).0.Went?
    ensures var (turn, t') := Turned(s, events, id, t, x);
            turn.step.retry.None? && DeliveredAll(t, t', id, turn.step.seqs)
  {
    var seqs := DueBatch(t.q, id, x.now, s.config.batchSize);
    DeliverLeased(t, id, seqs);
    hide DueBatch, Retained, DeliveredAll, DeliverRows, LeaseRows, P.AdvanceCursor;
    assert AllRetained(events, seqs);
  }

  lemma DeliveredAlso(t: Tables, t': Tables, t'': Tables, id: SubId, a: seq<nat>, b: seq<nat>)
    requires DeliveredAll(t, t', id, a) && DeliveredAll(t', t'', id, b)
    ensures DeliveredAll(t, t'', id, a + b)
  {
  }

  lemma {:induction false} CallDelivers(s: Settings, events: seq<Event>, id: SubId, t: Tables,
                                        inputs: nat -> Input, i: nat)
    requires ValidSettings(s) && (forall j :: Smooth(inputs(j))) && !LacksEvents(events, t.q, id)
    ensures var call := CallOf(s, events, id, t, inputs, i);
            && DeliveredAll(t, call.end, id, Taken(call.steps))
            && forall st :: st in call.steps ==> st.retry.None?
    decreases |B.PendingTokens(s.config, t.q)|
  {
    hide CallOf, Turned, DeliveredAll, LacksEvents, Taken, Confined, B.PendingTokens, ValidSettings;
    var x := inputs(i);
    var (turn, t') := Turned(s, events, id, t, x);
    assert Smooth(x);
    CallUnfolds(s, events, id, t, inputs, i);
    if turn.Went? {
      var after := CallOf(s, events, id, t', inputs, i + 1);
      TurnSpends(s, events, id, t, x);
      SmoothTurn(s, events, id, t, x);
      TurnConfined(s, events, id, t, x);
      LackedBefore(events, t, t', id);
      CallDelivers(s, events, id, t', inputs, i + 1);
      DeliveredAlso(t, t', after.end, id, turn.step.seqs, Taken(after.steps));
      TakenFirst(turn.step, after.steps);
    } else {
      SmoothEnd(s, events, id, t, x);
      NothingTaken(t, id);
    }
  }

  lemma NothingTaken(t: Tables, id: SubId)
    ensures DeliveredAll(t, t, id, Taken([]))
  {
  }

  lemma SmoothEnd(s: Settings, events: seq<Event>, id: SubId, t: Tables, x: Input)
    requires ValidSettings(s) && Smooth(x) && !LacksEvents(events, t.q, id)
    requires !Turned(s, events, id, t, x).0.Went?
    ensures Turned(s, events, id, t, x).1 == t
  {
  }

  lemma TakenFirst(step: Step, steps: seq<Step>)
    ensures Taken([step] + steps) == step.seqs + Taken(steps)
  {
    assert ([step] + steps)[1..] == steps;
  }

  lemma NoRetryAtAll(steps: seq<Step>, horizon: Time)
    requires forall st :: st in steps ==> st.retry.None?
    ensures NoneFallsDue(steps, horizon)
  {
  }

  lemma NothingLacks(events: seq<Event>, q: Deliveries, id: SubId, backlog: seq<nat>)
    requires !LacksEvents(events, q, id) && forall n :: n in backlog ==> n in Pending(q, id)
    ensures AllRetained(events, backlog)
  {
    hide Retained, Pending;
  }

  /** Every row that was pending is delivered at its next attempt, no other row has changed,
      and the cursor is at the last of them or where it was, whichever is higher. */
  ghost predicate AllDelivered(t: Tables, t': Tables, id: SubId, backlog: seq<nat>) {
    && t'.q.Keys == t.q.Keys
    && (forall k :: k in t.q ==>
          t'.q[k] == if k.sub == id && t.q[k].status.Pending?
                     then Row(t.q[k].attempt + 1, Delivered, None) else t.q[k])
    && (id in t.subs ==>
          id in t'.subs && t'.subs[id].cursor ==
            if backlog == [] then t.subs[id].cursor else Max(t.subs[id].cursor, backlog[|backlog| - 1]))
  }

  /** With nothing failing and every batch answered 2xx, one call posts the whole backlog in
      order and delivers all of it, and nothing else changes. */
  lemma ResumeDeliversBacklog(s: Settings, events: seq<Event>, id: SubId, t: Tables, inputs: nat -> Input)
    requires ValidSettings(s) && ClockAscends(inputs) && AllDue(t.q, id, inputs(0).now)
    requires (forall j :: Smooth(inputs(j))) && !LacksEvents(events, t.q, id)
    ensures var call, backlog := CallOf(s, events, id, t, inputs, 0), Sorted(Pending(t.q, id));
            call.drained && Posted(call.steps) == backlog && AllDelivered(t, call.end, id, backlog)
  {
    var call, backlog := CallOf(s, events, id, t, inputs, 0), Sorted(Pending(t.q, id));
    hide CallOf, Taken, Posted, ClockAscends, AllDue, AllRetained, Retained, Ascending, DeliveredAll, AllDelivered,
         NoneFallsDue, LacksEvents, Fails, Pending, B.PendingTokens;
    CallDelivers(s, events, id, t, inputs, 0);
    assert Smooth(inputs(call.last));
    NoRetryAtAll(call.steps, inputs(call.last).now);
    ResumeDrainsInOrder(s, events, id, t, inputs);
    NothingLacks(events, t.q, id, backlog);
    BacklogDelivered(t, call.end, id, backlog);
  }

  lemma BacklogDelivered(t: Tables, t': Tables, id: SubId, backlog: seq<nat>)
    requires DeliveredAll(t, t', id, backlog) && Ascending(backlog)
    requires forall n :: n in backlog <==> n in Pending(t.q, id)
    ensures AllDelivered(t, t', id, backlog)
  {
    forall k | k in t.q && k.sub == id ensures InBatch(k, id, backlog) <==> t.q[k].status.Pending? {
      assert k == Key(id, k.seqNo);
    }
    if backlog != [] {
      var last := backlog[|backlog| - 1];
      FrontElements(backlog);
      assert last in backlog;
      assert forall n :: n in backlog ==> n in Elements(backlog) && n <= last;
    }
  }
}
