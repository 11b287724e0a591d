/** The push delivery protocol as a state machine: every transaction, every channel
    operation and every network exchange of the dispatcher is a separate step, and admin
    calls, purges, ingestion and crashes may come between any two of them. */
module Protocol {
  import opened Common
  import opened Queue

  /** Values after New has replaced the non-positive ones. */
  datatype Config = Config(batchSize: nat, maxAttempts: nat, concurrency: nat)

  predicate ValidConfig(c: Config) {
    c.batchSize > 0 && c.maxAttempts > 0 && c.concurrency > 0
  }

  /** The endpoint's answer: 2xx; 5xx, 408, 429 or a transport error; anything else,
      including a request or payload that cannot be built. */
  datatype Answer = Ack | Retryable | Final

  /** Control points of one deliverSubscription goroutine. */
  datatype Pc =
    | Start
    | Loop
    | Selected(lease: Lease)
    | Leased(lease: Lease)
    | Fetched(lease: Lease, payload: seq<nat>)
    | Posted(lease: Lease, answer: Answer)
    | Returned
    | Released
    | Finished

  /** One DrainOnce call; worker i serves ids[i]. `sem` and `done` are channel fill levels. */
  datatype Pass =
    | Idle
    | Draining(ids: seq<SubId>, workers: seq<Pc>, sem: nat, done: nat, collected: nat)

  /** History variables: no guard reads them.
      acked     rows that were in a payload of their subscription answered 2xx
      stranded  rows whose worker lost them to a failed write or a failed event fetch
      leftover  rows in flight at the last crash, until a recovery succeeds
      inputs    initial value, acks and delivered batch ends of each cursor, in order
      leases    committed lease updates so far
      lives     times a row became pending anew: inserted, requeued or recovered
      heads     leases a row headed; `turns` counts those of its current life */
  datatype History = History(
    acked: set<Key>, stranded: set<Key>, leftover: set<Key>,
    inputs: map<SubId, seq<int>>,
    leases: nat, lives: map<Key, nat>, heads: map<Key, nat>, turns: map<Key, nat>)

  datatype State = State(
    now: Time, q: Deliveries, retained: set<nat>, subs: map<SubId, Subscription>,
    up: bool, pass: Pass, h: History)

  datatype EnvStep =
    | Tick(t: Time)
    | Publish(n: nat)
    | Enqueue(sub: SubId, seqs: seq<nat>)
    | Requeue(scope: Option<SubId>, status: Status, limit: int, chosen: set<Key>)
    | Purge(gone: set<nat>)
    | CreateSub(id: SubId, record: Subscription)
    | DeleteSub(id: SubId)
    | SetStatus(id: SubId, to: SubStatus)
    | AckCursor(id: SubId, value: int)

  datatype ProcStep =
    | Crash
    | Boot(recovered: bool)
    | BeginPass(ids: seq<SubId>)
    | Spawn
    | Collect

  /** A write either commits, fails without effect, or commits but reports an error. */
  datatype WriteResult = Written | Failed | WrittenWithError

  datatype WorkStep =
    | Lookup(ok: bool)
    | Abort
    | Select
    | LeaseWrite(result: WriteResult)
    | Fetch(ok: bool)
    | Park(result: WriteResult)
    | Post(reply: Answer)
    | Record(written: bool, at: Time)
    | Release
    | Signal

  datatype Action = Env(e: EnvStep) | Proc(p: ProcStep) | Work(i: nat, w: WorkStep)

  // ---- History updates ----------------------------------------------------------------

  function At(m: map<Key, nat>, k: Key): nat { if k in m then m[k] else 0 }

  function Bump(m: map<Key, nat>, ks: set<Key>): (r: map<Key, nat>)
    ensures forall k :: At(r, k) == At(m, k) + (if k in ks then 1 else 0)
  {
    map k | k in m.Keys + ks :: At(m, k) + (if k in ks then 1 else 0)
  }

  function Clear(m: map<Key, nat>, ks: set<Key>): (r: map<Key, nat>)
    ensures forall k :: At(r, k) == if k in ks then 0 else At(m, k)
  {
    map k | k in m.Keys + ks :: if k in ks then 0 else m[k]
  }

  /** The rows `ks` start a new life as pending rows. */
  function Renew(h: History, ks: set<Key>): History {
    h.(lives := Bump(h.lives, ks), turns := Clear(h.turns, ks),
       stranded := h.stranded - ks, leftover := h.leftover - ks)
  }

  function AddInput(h: History, id: SubId, v: int): History {
    h.(inputs := h.inputs[id := (if id in h.inputs then h.inputs[id] else []) + [v]])
  }

  function Strand(h: History, id: SubId, b: Lease): History {
    h.(stranded := h.stranded + BatchKeys(id, b.seqs))
  }

  /** Keys an enqueue inserts; existing rows are left alone. */
  function NewKeys(q: Deliveries, sub: SubId, seqs: seq<nat>): set<Key> {
    BatchKeys(sub, seqs) - q.Keys
  }

  // ---- Environment --------------------------------------------------------------------

  predicate EnvEnabled(s: State, e: EnvStep) {
    match e
    case Tick(t) => s.now <= t
    case Publish(n) => n !in s.retained
    case Enqueue(_, _) => true
    case Requeue(scope, status, limit, chosen) => RequeueChoice(s.q, scope, status, limit, chosen)
    case Purge(seqs) => seqs <= s.retained
    case CreateSub(id, _) => id !in s.subs
    case DeleteSub(id) => id in s.subs
    case SetStatus(id, _) => id in s.subs
    case AckCursor(id, _) => id in s.subs
  }

  function EnvApply(s: State, e: EnvStep): State
    requires EnvEnabled(s, e)
  {
    match e
    case Tick(t) => s.(now := t)
    case Publish(n) => s.(retained := s.retained + {n})
    case Enqueue(sub, seqs) =>
      s.(q := EnqueueRows(s.q, sub, seqs), h := Renew(s.h, NewKeys(s.q, sub, seqs)))
    case Requeue(_, _, _, chosen) =>
      s.(q := RequeueRows(s.q, chosen), h := Renew(s.h, chosen))
    case Purge(seqs) =>
      s.(q := PurgeRows(s.q, seqs), retained := s.retained - seqs)
    case CreateSub(id, sub) =>
      s.(subs := s.subs[id := sub], h := s.h.(inputs := s.h.inputs[id := [sub.cursor]]))
    case DeleteSub(id) =>
      s.(subs := s.subs - {id}, q := DropRows(s.q, id))
    case SetStatus(id, to) =>
      s.(subs := s.subs[id := s.subs[id].(status := to)])
    case AckCursor(id, v) =>
      s.(subs := AdvanceCursor(s.subs, id, v), h := AddInput(s.h, id, v))
  }

  /** UPDATE subscriptions SET cursor = v WHERE id = id AND cursor < v. */
  function AdvanceCursor(subs: map<SubId, Subscription>, id: SubId, v: int): map<SubId, Subscription> {
    if id in subs && subs[id].cursor < v then subs[id := subs[id].(cursor := v)] else subs
  }

  // ---- Process and pass ---------------------------------------------------------------

  function DueSubs(q: Deliveries, now: Time): set<SubId> {
    set k | k in q && Due(q[k], now) :: k.sub
  }

  /** SELECT DISTINCT subscription_id ... ORDER BY subscription_id LIMIT limit. */
  predicate DuePage(q: Deliveries, now: Time, limit: nat, ids: seq<SubId>) {
    && (forall i, j :: 0 <= i < j < |ids| ==> StringLess(ids[i], ids[j]))
    && (forall i :: 0 <= i < |ids| ==> ids[i] in DueSubs(q, now))
    && |ids| == Min(limit, |DueSubs(q, now)|)
    && forall i, id :: 0 <= i < |ids| && id in DueSubs(q, now) && id !in ids ==> StringLess(ids[i], id)
  }

  predicate ProcEnabled(c: Config, s: State, p: ProcStep) {
    match p
    case Crash => true
    case Boot(_) => !s.up
    case BeginPass(ids) => s.up && s.pass.Idle? && ids != [] && DuePage(s.q, s.now, c.concurrency * 4, ids)
    case Spawn => s.pass.Draining? && |s.pass.workers| < |s.pass.ids| && s.pass.sem < c.concurrency
    case Collect => s.pass.Draining? && |s.pass.workers| == |s.pass.ids| && s.pass.done > 0
  }

  function ProcApply(c: Config, s: State, p: ProcStep): State
    requires ProcEnabled(c, s, p)
  {
    match p
    case Crash =>
      s.(up := false, pass := Idle, h := s.h.(stranded := {}, leftover := InflightKeys(s.q)))
    case Boot(recovered) =>
      if !recovered then s.(up := true) else
        s.(up := true, q := RecoverRows(s.q),
           h := Renew(s.h, InflightKeys(s.q)).(stranded := {}, leftover := {}))
    case BeginPass(ids) => s.(pass := Draining(ids, [], 0, 0, 0))
    case Spawn => s.(pass := s.pass.(workers := s.pass.workers + [Start], sem := s.pass.sem + 1))
    case Collect =>
      if s.pass.collected + 1 == |s.pass.ids| then s.(pass := Idle)
      else s.(pass := s.pass.(done := s.pass.done - 1, collected := s.pass.collected + 1))
  }

  // ---- Workers ------------------------------------------------------------------------

  predicate Live(s: State, i: int) {
    s.pass.Draining? && 0 <= i < |s.pass.workers| <= |s.pass.ids|
  }

  predicate Deliverable(s: State, id: SubId) {
    id in s.subs && s.subs[id].status.Active? && s.subs[id].mode.Push? && s.subs[id].endpoint != ""
  }

  predicate WorkEnabled(c: Config, s: State, i: nat, w: WorkStep) {
    && Live(s, i)
    && var pc := s.pass.workers[i];
       match w
       case Lookup(_) => pc.Start?
       case Abort => pc.Loop?
       case Select => pc.Loop?
       case LeaseWrite(_) => pc.Selected? && pc.lease.seqs != []
       case Fetch(_) => pc.Leased?
       case Park(_) => pc.Fetched? && |pc.payload| != |pc.lease.seqs|
       case Post(_) => pc.Fetched? && |pc.payload| == |pc.lease.seqs|
       case Record(_, _) => pc.Posted? && pc.lease.seqs != []
       case Release => pc.Returned? && s.pass.sem > 0
       case Signal => pc.Released? && s.pass.done < |s.pass.ids|
  }

  function TakeLease(s: State, id: SubId, b: Lease): State
    requires b.seqs != []
  {
    var head := {Key(id, b.seqs[0])};
    s.(q := LeaseRows(s.q, id, b.seqs),
       h := s.h.(leases := s.h.leases + 1, heads := Bump(s.h.heads, head), turns := Bump(s.h.turns, head)))
  }

  predicate Buries(c: Config, b: Lease, answer: Answer) {
    answer.Final? || Exhausted(b.headAttempt, c.maxAttempts)
  }

  /** The outcome write of send: MarkDelivered with the cursor, or MarkFailed. */
  function WriteOutcome(c: Config, s: State, id: SubId, b: Lease, answer: Answer, at: Time): State
    requires b.seqs != []
  {
    if answer.Ack? then
      var last := b.seqs[|b.seqs| - 1];
      s.(q := DeliverRows(s.q, id, b.seqs),
         subs := AdvanceCursor(s.subs, id, last),
         h := if id in s.subs then AddInput(s.h, id, last) else s.h)
    else
      s.(q := FailRows(s.q, id, b.seqs, Some(at), Buries(c, b, answer)))
  }

  /** Where worker i goes next. */
  function NextPc(c: Config, s: State, i: nat, w: WorkStep): Pc
    requires WorkEnabled(c, s, i, w)
  {
    var pc := s.pass.workers[i];
    var id := s.pass.ids[i];
    match w
    case Lookup(ok) => if ok && Deliverable(s, id) then Loop else Returned
    case Abort => Returned
    case Select =>
      var seqs := DueBatch(s.q, id, s.now, c.batchSize);
      if seqs == [] then Returned else Selected(Lease(seqs, s.q[Key(id, seqs[0])].attempt))
    case LeaseWrite(result) => if result.Written? then Leased(pc.lease) else Returned
    case Fetch(ok) => if ok then Fetched(pc.lease, Payload(s.retained, pc.lease.seqs)) else Returned
    case Park(result) => if result.Written? then Loop else Returned
    case Post(reply) => Posted(pc.lease, reply)
    case Record(_, _) => Loop
    case Release => Released
    case Signal => Finished
  }

  /** What worker i's step does to the tables and the history; control is untouched. */
  function Effect(c: Config, s: State, i: nat, w: WorkStep): State
    requires WorkEnabled(c, s, i, w)
  {
    var pc := s.pass.workers[i];
    var id := s.pass.ids[i];
    match w
    case LeaseWrite(result) =>
      if result.Failed? then s else
        var t := TakeLease(s, id, pc.lease);
        if result.Written? then t else t.(h := Strand(t.h, id, pc.lease))
    case Fetch(ok) => if ok then s else s.(h := Strand(s.h, id, pc.lease))
    case Park(result) =>
      if result.Failed? then s.(h := Strand(s.h, id, pc.lease))
      else s.(q := FailRows(s.q, id, pc.lease.seqs, None, true))
    case Post(reply) =>
      if reply.Ack? then s.(h := s.h.(acked := s.h.acked + BatchKeys(id, pc.payload))) else s
    case Record(written, at) =>
      if written then WriteOutcome(c, s, id, pc.lease, pc.answer, at)
      else s.(h := Strand(s.h, id, pc.lease))
    case _ => s
  }

  function WorkApply(c: Config, s: State, i: nat, w: WorkStep): State
    requires WorkEnabled(c, s, i, w)
  {
    Effect(c, s, i, w).(pass := s.pass.(
      workers := s.pass.workers[i := NextPc(c, s, i, w)],
      sem := if w.Release? then s.pass.sem - 1 else s.pass.sem,
      done := if w.Signal? then s.pass.done + 1 else s.pass.done))
  }

  // ---- Runs ---------------------------------------------------------------------------

  predicate Enabled(c: Config, s: State, a: Action) {
    match a
    case Env(e) => EnvEnabled(s, e)
    case Proc(p) => ProcEnabled(c, s, p)
    case Work(i, w) => WorkEnabled(c, s, i, w)
  }

  function Apply(c: Config, s: State, a: Action): State
    requires Enabled(c, s, a)
  {
    match a
    case Env(e) => EnvApply(s, e)
    case Proc(p) => ProcApply(c, s, p)
    case Work(i, w) => WorkApply(c, s, i, w)
  }

  /** `acts` can be taken one after the other from `s`. */
  predicate Runs(c: Config, s: State, acts: seq<Action>)
    decreases |acts|
  {
    acts == [] || (Enabled(c, s, acts[0]) && Runs(c, Apply(c, s, acts[0]), acts[1..]))
  }

  function EndState(c: Config, s: State, acts: seq<Action>): State
    requires Runs(c, s, acts)
    decreases |acts|
  {
    if acts == [] then s else EndState(c, Apply(c, s, acts[0]), acts[1..])
  }

  /** A fresh installation, before the first process start. */
  predicate Initial(s: State) {
    && s.q == map[] && s.retained == {} && s.subs == map[] && !s.up && s.pass.Idle?
    && s.h == History({}, {}, {}, map[], 0, map[], map[], map[])
  }
}
