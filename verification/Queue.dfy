/** The deliveries table: one value of `Deliveries` is one committed state, and each
    function below is one SQL statement of internal/store/deliveries.go. */
module Queue {
  import opened Common

  datatype Status = Pending | Inflight | Delivered | Dead

  /** PRIMARY KEY (subscription_id, event_seq). */
  datatype Key = Key(sub: SubId, seqNo: nat)

  datatype Row = Row(attempt: nat, status: Status, nextRetry: Option<Time>)

  type Deliveries = map<Key, Row>

  /** What LeaseDeliveries keeps in memory: the selected numbers, and the attempt of the
      first row as it was read before the UPDATE bumped it. */
  datatype Lease = Lease(seqs: seq<nat>, headAttempt: nat)

  const FRESH := Row(0, Pending, None)

  predicate Due(r: Row, now: Time) {
    r.status.Pending? && (r.nextRetry.None? || r.nextRetry.value <= now)
  }

  predicate InBatch(k: Key, sub: SubId, seqs: seq<nat>) {
    k.sub == sub && k.seqNo in seqs
  }

  function BatchKeys(sub: SubId, seqs: seq<nat>): (r: set<Key>)
    ensures forall k :: k in r <==> InBatch(k, sub, seqs)
  {
    set n | n in seqs :: Key(sub, n)
  }

  /** Missing rows are added as fresh ones; rows already there, in any status, stay. */
  function WithFresh(q: Deliveries, ks: set<Key>): Deliveries {
    map k | k in q.Keys + ks :: if k in q then q[k] else FRESH
  }

  /** INSERT OR IGNORE. */
  function EnqueueRows(q: Deliveries, sub: SubId, seqs: seq<nat>): Deliveries {
    WithFresh(q, BatchKeys(sub, seqs))
  }

  function RecoverRows(q: Deliveries): Deliveries {
    map k | k in q :: if q[k].status.Inflight? then q[k].(status := Pending) else q[k]
  }

  function DueSeqs(q: Deliveries, sub: SubId, now: Time): (r: set<nat>)
    ensures forall n :: n in r <==> Key(sub, n) in q && Due(q[Key(sub, n)], now)
  {
    set k | k in q && k.sub == sub && Due(q[k], now) :: k.seqNo
  }

  function DueBatch(q: Deliveries, sub: SubId, now: Time, limit: int): (r: seq<nat>)
    ensures Ascending(r)
    ensures forall n :: n in r ==> Key(sub, n) in q && Due(q[Key(sub, n)], now)
  {
    var all := Sorted(DueSeqs(q, sub, now));
    all[..Min(|all|, if limit <= 0 then 50 else limit)]
  }

  /** UPDATE ... SET status = inflight, attempt = attempt + 1 WHERE status = pending. */
  function LeaseRows(q: Deliveries, sub: SubId, seqs: seq<nat>): Deliveries {
    map k | k in q ::
      if InBatch(k, sub, seqs) && q[k].status.Pending?
      then q[k].(status := Inflight, attempt := q[k].attempt + 1)
      else q[k]
  }

  function DeliverRows(q: Deliveries, sub: SubId, seqs: seq<nat>): Deliveries {
    map k | k in q ::
      if InBatch(k, sub, seqs) then q[k].(status := Delivered, nextRetry := None) else q[k]
  }

  function FailRows(q: Deliveries, sub: SubId, seqs: seq<nat>, nextRetry: Option<Time>, dead: bool): Deliveries {
    map k | k in q ::
      if InBatch(k, sub, seqs)
      then q[k].(status := if dead then Dead else Pending, nextRetry := if dead then None else nextRetry)
      else q[k]
  }

  /** The rows a requeue may pick: the given status, and the given subscription if any. */
  function RequeueCandidates(q: Deliveries, scope: Option<SubId>, status: Status): set<Key> {
    set k | k in q && q[k].status == status && (scope.Some? ==> k.sub == scope.value)
  }

  /** ORDER BY event_seq LIMIT: lowest numbers first, ties between subscriptions open. */
  predicate RequeueChoice(q: Deliveries, scope: Option<SubId>, status: Status, limit: int, chosen: set<Key>) {
    var all := RequeueCandidates(q, scope, status);
    && chosen <= all
    && |chosen| == Min(|all|, if limit <= 0 then 100 else limit)
    && forall k, l :: k in chosen && l in all - chosen ==> k.seqNo <= l.seqNo
  }

  function RequeueRows(q: Deliveries, chosen: set<Key>): Deliveries {
    map k | k in q :: if k in chosen then FRESH else q[k]
  }

  function PurgeRows(q: Deliveries, seqs: set<nat>): Deliveries {
    map k | k in q && k.seqNo !in seqs :: q[k]
  }

  function DropRows(q: Deliveries, sub: SubId): Deliveries {
    map k | k in q && k.sub != sub :: q[k]
  }

  function InflightKeys(q: Deliveries): set<Key> {
    set k | k in q && q[k].status.Inflight?
  }

  /** eventsBySeq: the retained events among the leased numbers, ORDER BY seq. */
  function Payload(retained: set<nat>, seqs: seq<nat>): seq<nat> {
    Sorted(retained * Elements(seqs))
  }

  /** The outcome is judged by the batch head alone. */
  predicate Exhausted(headAttempt: nat, maxAttempts: nat) {
    headAttempt + 1 >= maxAttempts
  }

  // ---- Facts about single statements --------------------------------------------------

  /** Equal counts mean the payload is exactly the leased rows, in order; unequal counts
      mean some leased row has lost its event. */
  lemma PayloadCorresponds(retained: set<nat>, seqs: seq<nat>)
    requires Ascending(seqs)
    ensures |Payload(retained, seqs)| == |seqs| <==> forall n :: n in seqs ==> n in retained
    ensures |Payload(retained, seqs)| == |seqs| ==> Payload(retained, seqs) == seqs
    ensures |Payload(retained, seqs)| <= |seqs|
  {
    var p := Payload(retained, seqs);
    AscendingCard(seqs);
    SubsetCard(retained * Elements(seqs), Elements(seqs));
    if |p| == |seqs| {
      AscendingEqual(p, seqs);
    }
    assert (forall n :: n in seqs ==> n in retained) ==> retained * Elements(seqs) == Elements(seqs);
  }

  /** The batch is the lowest due numbers: nothing due and unselected is below it, and
      the limit cuts it only when more is due. */
  lemma BatchIsLowestDue(q: Deliveries, sub: SubId, now: Time, limit: int)
    ensures var b := DueBatch(q, sub, now, limit);
            var cap := if limit <= 0 then 50 else limit;
            && |b| <= cap
            && (|b| < cap ==> Elements(b) == DueSeqs(q, sub, now))
            && forall n, m :: n in b && m in DueSeqs(q, sub, now) && m !in b ==> n < m
  {
  }
}
