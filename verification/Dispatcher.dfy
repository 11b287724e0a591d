/** One worker with nothing in between: send, and the lease/send loop. Whatever a turn does
    not decide itself is an input, so what a call does is a function of tables and inputs. */
module Dispatcher {
  import opened Common
  import opened Queue
  import opened EventLog
  import opened Store
  import P = Protocol
  import B = Budget
  import Backoff

  datatype Settings = Settings(config: P.Config, base: int, max: int)

  predicate ValidSettings(s: Settings) {
    P.ValidConfig(s.config) && 0 < s.base <= Backoff.MAX_INT64 && 0 < s.max <= Backoff.MAX_INT64
  }

  /** What one turn of the loop meets: a cancelled context, the database call that fails,
      the endpoint's answer, the clock when the batch is selected (`now`) and when its
      outcome is written (`after`), and the two readings backoff depends on. */
  datatype Input = Input(
    cancelled: bool, leaseFails: bool, fetchFails: bool, writeFails: bool, answer: P.Answer,
    now: Time, after: Time, wrapped: int, nanos: nat)

  predicate ValidInput(x: Input) {
    x.wrapped in {Backoff.MIN_INT64, Backoff.MAX_INT64}
  }

  datatype Tables = Tables(q: Deliveries, subs: map<SubId, Subscription>)

  // ---- send ---------------------------------------------------------------------------

  function RetryTime(s: Settings, b: Lease, x: Input): Option<Time>
    requires ValidSettings(s)
  {
    if x.answer.Ack? || P.Buries(s.config, b, x.answer) then None
    else Some(x.after + Backoff.Wait(b.headAttempt + 1, s.base, s.max, x.wrapped, x.nanos))
  }

  /** What send makes of the tables. */
  function Sent(s: Settings, sub: SubId, t: Tables, b: Lease, x: Input): Tables
    requires ValidSettings(s) && b.seqs != []
  {
    if x.writeFails then t
    else if x.answer.Ack? then
      Tables(DeliverRows(t.q, sub, b.seqs), P.AdvanceCursor(t.subs, sub, b.seqs[|b.seqs| - 1]))
    else t.(q := FailRows(t.q, sub, b.seqs, RetryTime(s, b, x), P.Buries(s.config, b, x.answer)))
  }

  /** The retry is due after the delay of attempt number `attempt`, and at most a tenth of it
      later. */
  predicate RetriesAfter(s: Settings, x: Input, attempt: nat, retry: Option<Time>)
    requires ValidSettings(s)
  {
    var d := Backoff.Delay(attempt, s.base, s.max, x.wrapped);
    retry.Some? && x.after + d <= retry.value <= x.after + d + d / 10
  }

  lemma RetryInRange(s: Settings, b: Lease, x: Input)
    requires ValidSettings(s) && ValidInput(x)
    ensures if x.answer.Retryable? && b.headAttempt + 1 < s.config.maxAttempts
            then RetriesAfter(s, x, b.headAttempt + 1, RetryTime(s, b, x)) else RetryTime(s, b, x).None?
  {
    Backoff.WaitBounds(b.headAttempt + 1, s.base, s.max, x.wrapped, x.nanos);
    hide Backoff.Delay, Backoff.Wait;
  }

  /** What send makes of one row. */
  lemma SentRow(s: Settings, sub: SubId, t: Tables, b: Lease, x: Input, k: Key)
    requires ValidSettings(s) && ValidInput(x) && b.seqs != [] && k in t.q
    ensures var q', retry, r := Sent(s, sub, t, b, x).q, RetryTime(s, b, x), t.q[k];
            && q'.Keys == t.q.Keys
            && if x.writeFails || k.sub != sub || k.seqNo !in b.seqs then q'[k] == r
               else if x.answer.Ack? then q'[k] == Row(r.attempt, Delivered, None)
               else if x.answer.Final? || b.headAttempt + 1 >= s.config.maxAttempts then
                 q'[k] == Row(r.attempt, Dead, None)
               else q'[k] == Row(r.attempt, Pending, retry) && RetriesAfter(s, x, b.headAttempt + 1, retry)
  {
    RetryInRange(s, b, x);
    hide RetriesAfter, RetryTime, P.AdvanceCursor;
  }

  /** send: a 2xx answer delivers the batch, an answer that is not retryable buries it, and
      so does a retryable one when the head has used its attempts up; otherwise the rows are
      pending again until a retry time strictly in the future. */
  method Send(st: Store, s: Settings, sub: SubId, b: Lease, x: Input) returns (retry: Option<Time>)
    requires st.Valid() && ValidSettings(s) && ValidInput(x) && b.seqs != []
    modifies st`q, st`subs
    ensures st.Valid()
    ensures Tables(st.q, st.subs) == Sent(s, sub, Tables(old(st.q), old(st.subs)), b, x)
    ensures retry == RetryTime(s, b, x)
    ensures retry.Some? ==> retry.value > x.after
    ensures st.q.Keys == old(st.q).Keys
    ensures forall k :: k in st.q ==>
              var r := old(st.q)[k];
              if x.writeFails || k.sub != sub || k.seqNo !in b.seqs then st.q[k] == r
              else if x.answer.Ack? then st.q[k] == Row(r.attempt, Delivered, None)
              else if x.answer.Final? || b.headAttempt + 1 >= s.config.maxAttempts then
                st.q[k] == Row(r.attempt, Dead, None)
              else st.q[k] == Row(r.attempt, Pending, retry) && RetriesAfter(s, x, b.headAttempt + 1, retry)
    ensures st.subs.Keys == old(st.subs).Keys
    ensures forall id :: id in st.subs ==>
              var before, last := old(st.subs)[id], b.seqs[|b.seqs| - 1];
              st.subs[id] == before.(cursor := if id == sub && x.answer.Ack? && !x.writeFails
                                               then Max(before.cursor, last) else before.cursor)
  {
    hide RetriesAfter, LogOk;
    RetryInRange(s, b, x);
    retry := None;
    if x.answer.Ack? {
      var ok := st.MarkDelivered(sub, b.seqs, x.writeFails);
      assert ok ==> st.q == DeliverRows(old(st.q), sub, b.seqs);
      assert ok ==> st.subs == P.AdvanceCursor(old(st.subs), sub, b.seqs[|b.seqs| - 1]);
      hide DeliverRows, P.AdvanceCursor, RetryTime;
      return;
    }
    var attempt := b.headAttempt + 1;
    var dead := !x.answer.Retryable? || attempt >= s.config.maxAttempts;
    if !dead {
      Backoff.WaitBounds(attempt, s.base, s.max, x.wrapped, x.nanos);
      retry := Some(x.after + Backoff.Wait(attempt, s.base, s.max, x.wrapped, x.nanos));
    }
    var ok := st.MarkFailed(sub, b.seqs, retry, dead, x.writeFails);
    assert ok ==> st.q == FailRows(old(st.q), sub, b.seqs, retry, dead);
    assert retry == RetryTime(s, b, x);
    hide FailRows, RetryTime, Backoff.Wait;
  }

  // ---- one turn -----------------------------------------------------------------------

  /** A batch that was leased and settled: posted, or parked because an event is gone; and
      the retry time written for it, if any. */
  datatype Step = Step(seqs: seq<nat>, posted: bool, retry: Option<Time>)

  /** How a turn ends: the call returns an error, nothing is due, or a batch is settled. */
  datatype Turn = Stopped | Drained | Went(step: Step)

  predicate AllRetained(events: seq<Event>, seqs: seq<nat>) {
    forall n :: n in seqs ==> n in Retained(events)
  }

  /** Settling the leased batch b; t has it in flight. */
  function Settled(s: Settings, events: seq<Event>, id: SubId, t: Tables, b: Lease, x: Input): (Turn, Tables)
    requires ValidSettings(s) && b.seqs != []
  {
    if AllRetained(events, b.seqs) then
      (Went(Step(b.seqs, true, if x.writeFails then None else RetryTime(s, b, x))), Sent(s, id, t, b, x))
    else if x.writeFails then (Stopped, t)
    else (Went(Step(b.seqs, false, None)), t.(q := FailRows(t.q, id, b.seqs, None, true)))
  }

  function HeadLease(q: Deliveries, id: SubId, seqs: seq<nat>): Lease
    requires seqs != [] && Key(id, seqs[0]) in q
  {
    Lease(seqs, q[Key(id, seqs[0])].attempt)
  }

  /** What one turn makes of the tables. */
  function Turned(s: Settings, events: seq<Event>, id: SubId, t: Tables, x: Input): (Turn, Tables)
    requires ValidSettings(s)
  {
    if x.cancelled || x.leaseFails then (Stopped, t) else
      var seqs := DueBatch(t.q, id, x.now, s.config.batchSize);
      if seqs == [] then (Drained, t) else
        var leased := t.(q := LeaseRows(t.q, id, seqs));
        if x.fetchFails then (Stopped, leased)
        else Settled(s, events, id, leased, HeadLease(t.q, id, seqs), x)
  }

  /** The loop counts the fetched events to tell whether one is gone. */
  method Settle(st: Store, s: Settings, id: SubId, b: Lease, events: seq<Event>, x: Input) returns (turn: Turn)
    requires st.Valid() && ValidSettings(s) && ValidInput(x)
    requires b.seqs != [] && Ascending(b.seqs) && events == BySeq(st.events, b.seqs)
    modifies st`q, st`subs
    ensures st.Valid()
    ensures (turn, Tables(st.q, st.subs)) == Settled(s, st.events, id, Tables(old(st.q), old(st.subs)), b, x)
  {
    PayloadIsBatch(st.events, b.seqs);
    hide LogOk, Retained, DeliverRows, BySeq, Sent, RetryTime;
    if |events| != |b.seqs| {
      var ok := st.MarkFailed(id, b.seqs, None, true, x.writeFails);
      assert ok ==> st.q == FailRows(old(st.q), id, b.seqs, None, true);
      return if ok then Went(Step(b.seqs, false, None)) else Stopped;
    }
    hide FailRows;
    var retry := Send(st, s, id, b, x);
    return Went(Step(b.seqs, true, if x.writeFails then None else retry));
  }

  method OneTurn(st: Store, s: Settings, id: SubId, x: Input) returns (turn: Turn)
    requires st.Valid() && ValidSettings(s) && ValidInput(x)
    modifies st`q, st`subs
    ensures st.Valid()
    ensures (turn, Tables(st.q, st.subs)) == Turned(s, st.events, id, Tables(old(st.q), old(st.subs)), x)
  {
    hide LogOk, Settled, LeaseRows, BySeq;
    if x.cancelled {
      return Stopped;
    }
    var lease := st.LeaseDeliveries(id, s.config.batchSize, x.now, x.leaseFails, x.fetchFails);
    if lease.Err? {
      return Stopped;
    }
    var (b, events) := lease.value;
    if |b.seqs| == 0 {
      return Drained;
    }
    turn := Settle(st, s, id, b, events, x);
  }

  predicate Lacks(events: seq<Event>, seqs: seq<nat>) {
    exists n :: n in seqs && forall e :: e in events ==> e.seqNo != n
  }

  /** How a turn ends, for every input. */
  lemma TurnEnds(s: Settings, events: seq<Event>, id: SubId, t: Tables, x: Input)
    requires ValidSettings(s)
    ensures var turn, seqs := Turned(s, events, id, t, x).0, DueBatch(t.q, id, x.now, s.config.batchSize);
            var none := x.cancelled || x.leaseFails;
            && (turn.Stopped? <==>
                  none || (seqs != [] && (x.fetchFails || (Lacks(events, seqs) && x.writeFails))))
            && (turn.Drained? <==> !none && seqs == [])
            && (turn.Went? ==>
                  && turn.step.seqs == seqs != [] && (turn.step.posted <==> !Lacks(events, seqs))
                  && (turn.step.retry.Some? <==>
                        && turn.step.posted && !x.writeFails && x.answer.Retryable?
                        && t.q[Key(id, seqs[0])].attempt + 1 < s.config.maxAttempts))
  {
    LacksIsMissing(events, DueBatch(t.q, id, x.now, s.config.batchSize));
    hide DueBatch, AllRetained, Sent, Lacks, Backoff.Wait;
  }

  lemma LacksIsMissing(events: seq<Event>, seqs: seq<nat>)
    ensures Lacks(events, seqs) <==> !AllRetained(events, seqs)
  {
  }

  /** What a turn does to one row, for every input. */
  lemma TurnRow(s: Settings, events: seq<Event>, id: SubId, t: Tables, x: Input, k: Key)
    requires ValidSettings(s) && ValidInput(x) && k in t.q
    ensures var (turn, t') := Turned(s, events, id, t, x);
            var seqs := DueBatch(t.q, id, x.now, s.config.batchSize);
            && t'.q.Keys == t.q.Keys
            && var r, r' := t.q[k], t'.q[k];
               if x.cancelled || x.leaseFails || k.sub != id || k.seqNo !in seqs then r' == r
               else if x.fetchFails || x.writeFails then r' == Row(r.attempt + 1, Inflight, r.nextRetry)
               else if Lacks(events, seqs) then r' == Row(r.attempt + 1, Dead, None)
               else if x.answer.Ack? then r' == Row(r.attempt + 1, Delivered, None)
               else
                 var attempt := t.q[Key(id, seqs[0])].attempt + 1;
                 if x.answer.Final? || attempt >= s.config.maxAttempts then r' == Row(r.attempt + 1, Dead, None)
                 else && turn.Went? && r' == Row(r.attempt + 1, Pending, turn.step.retry)
                      && RetriesAfter(s, x, attempt, turn.step.retry)
  {
    var seqs := DueBatch(t.q, id, x.now, s.config.batchSize);
    LacksIsMissing(events, seqs);
    hide DueBatch, RetryTime, RetriesAfter, AllRetained, Sent, Lacks;
    if seqs != [] && !x.cancelled && !x.leaseFails {
      var leased := t.(q := LeaseRows(t.q, id, seqs));
      LeasedRow(t.q, id, seqs, k);
      hide LeaseRows;
      SentRow(s, id, leased, HeadLease(t.q, id, seqs), x, k);
    }
  }

  lemma LeasedRow(q: Deliveries, id: SubId, seqs: seq<nat>, k: Key)
    requires k in q && forall n :: n in seqs && Key(id, n) in q ==> q[Key(id, n)].status.Pending?
    ensures var q', r := LeaseRows(q, id, seqs), q[k];
            && q'.Keys == q.Keys
            && q'[k] == if k.sub == id && k.seqNo in seqs then Row(r.attempt + 1, Inflight, r.nextRetry) else r
  {
  }

  // ---- termination --------------------------------------------------------------------

  function RowWorth(c: P.Config, r: Row): nat {
    if r.status.Pending? then B.Worth(c, r.attempt) else 0
  }

  lemma TokenOf(c: P.Config, q: Deliveries, k: Key, n: nat)
    ensures (k, n) in B.PendingTokens(c, q) <==> k in q && n < RowWorth(c, q[k])
  {
  }

  /** A settled batch leaves its rows delivered, dead, back to pending although the head's
      budget allows it, or in flight; whatever it does, it spends at least one token. */
  ghost predicate SettledRows(leased: Deliveries, q: Deliveries, sub: SubId, b: Lease, retry: Option<Time>,
                              c: P.Config)
  {
    || q == leased
    || q == DeliverRows(leased, sub, b.seqs)
    || q == FailRows(leased, sub, b.seqs, None, true)
    || (retry.Some? && !Exhausted(b.headAttempt, c.maxAttempts) && q == FailRows(leased, sub, b.seqs, retry, false))
  }

  lemma BatchSpends(c: P.Config, q: Deliveries, q': Deliveries, sub: SubId, b: Lease, retry: Option<Time>)
    requires b.seqs != [] && Key(sub, b.seqs[0]) in q && b.headAttempt == q[Key(sub, b.seqs[0])].attempt
    requires forall n :: n in b.seqs ==> Key(sub, n) in q && q[Key(sub, n)].status.Pending?
    requires SettledRows(LeaseRows(q, sub, b.seqs), q', sub, b, retry, c)
    ensures |B.PendingTokens(c, q')| < |B.PendingTokens(c, q)|
  {
    var head := Key(sub, b.seqs[0]);
    forall k | k in q' ensures k in q && RowWorth(c, q'[k]) <= RowWorth(c, q[k]) {}
    assert RowWorth(c, q'[head]) < RowWorth(c, q[head]);
    var t0 := (head, RowWorth(c, q[head]) - 1);
    TokenOf(c, q, t0.0, t0.1);
    hide LeaseRows, SettledRows;
    forall t | t in B.PendingTokens(c, q') ensures t in B.PendingTokens(c, q) - {t0} {
      TokenOf(c, q', t.0, t.1);
      TokenOf(c, q, t.0, t.1);
    }
    SubsetCard(B.PendingTokens(c, q'), B.PendingTokens(c, q) - {t0});
  }

  /** A turn that goes on has settled the due batch. */
  lemma TurnSettles(s: Settings, events: seq<Event>, id: SubId, t: Tables, x: Input)
    requires ValidSettings(s) && Turned(s, events, id, t, x).0.Went?
    ensures var (turn, t') := Turned(s, events, id, t, x);
            var seqs := DueBatch(t.q, id, x.now, s.config.batchSize);
            && turn.step.seqs == seqs != []
            && SettledRows(LeaseRows(t.q, id, seqs), t'.q, id, HeadLease(t.q, id, seqs), turn.step.retry, s.config)
  {
    hide LeaseRows, FailRows, DeliverRows, DueBatch, Retained;
  }

  lemma TurnSpends(s: Settings, events: seq<Event>, id: SubId, t: Tables, x: Input)
    requires ValidSettings(s) && Turned(s, events, id, t, x).0.Went?
    ensures |B.PendingTokens(s.config, Turned(s, events, id, t, x).1.q)| < |B.PendingTokens(s.config, t.q)|
  {
    TurnSettles(s, events, id, t, x);
    hide Turned, SettledRows;
    var seqs := DueBatch(t.q, id, x.now, s.config.batchSize);
    var (turn, t') := Turned(s, events, id, t, x);
    BatchSpends(s.config, t.q, t'.q, id, HeadLease(t.q, id, seqs), turn.step.retry);
  }

  // ---- the loop -----------------------------------------------------------------------

  /** What a call did: the batches it settled, whether it ended because nothing was due, the
      tables it left, and which input met the turn that ended it. */
  datatype Call = Call(steps: seq<Step>, drained: bool, end: Tables, last: nat)

  /** The turns of one call, from the i-th input on. */
  ghost function CallOf(s: Settings, events: seq<Event>, id: SubId, t: Tables, inputs: nat -> Input, i: nat): Call
    requires ValidSettings(s)
    decreases |B.PendingTokens(s.config, t.q)|
  {
    var (turn, t') := Turned(s, events, id, t, inputs(i));
    match turn
    case Stopped => Call([], false, t', i)
    case Drained => Call([], true, t', i)
    case Went(step) =>
      TurnSpends(s, events, id, t, inputs(i));
      var rest := CallOf(s, events, id, t', inputs, i + 1);
      rest.(steps := [step] + rest.steps)
  }

  /** deliverSubscription: the turns until one ends the call, for an active push
      subscription with an endpoint; otherwise nothing. It ends for any inputs whatever. */
  method DeliverSubscription(st: Store, s: Settings, id: SubId, lookupFails: bool, inputs: nat -> Input)
    returns (ok: bool)
    requires st.Valid() && ValidSettings(s) && forall i :: ValidInput(inputs(i))
    modifies st`q, st`subs
    ensures st.Valid()
    ensures var before := Tables(old(st.q), old(st.subs));
            var subs := old(st.subs);
            if && !lookupFails && id in subs
               && subs[id].status.Active? && subs[id].mode.Push? && subs[id].endpoint != "" then
              var call := CallOf(s, st.events, id, before, inputs, 0);
              ok == call.drained && Tables(st.q, st.subs) == call.end
            else
              ok == !lookupFails && Tables(st.q, st.subs) == before
  {
    if lookupFails {
      return false;
    }
    if id !in st.subs {
      return true;
    }
    if !st.subs[id].status.Active? || !st.subs[id].mode.Push? || st.subs[id].endpoint == "" {
      return true;
    }
    ghost var call := CallOf(s, st.events, id, Tables(st.q, st.subs), inputs, 0);
    hide LogOk, Turned;
    var i: nat := 0;
    while true
      invariant st.Valid() && st.events == old(st.events)
      invariant var rest := CallOf(s, st.events, id, Tables(st.q, st.subs), inputs, i);
                rest.drained == call.drained && rest.end == call.end
      decreases |B.PendingTokens(s.config, st.q)|
    {
      ghost var t := Tables(st.q, st.subs);
      var turn := OneTurn(st, s, id, inputs(i));
      match turn {
        case Stopped => return false;
        case Drained => return true;
        case Went(_) => TurnSpends(s, st.events, id, t, inputs(i));
      }
      i := i + 1;
    }
  }
}
