/** What the delivery protocol promises over every run, from an empty installation and
    with crashes, failed writes, requeues, purges and deletions anywhere in between. */
module Guarantees {
  import opened Common
  import opened Queue
  import opened Protocol
  import opened Safety
  import B = Budget

  lemma FromInitial(c: Config, s: State, acts: seq<Action>)
    requires ValidConfig(c) && Initial(s) && Runs(c, s, acts)
    ensures Inv(c, EndState(c, s, acts))
  {
    RunKeeps(c, s, acts);
  }

  // ---- Delivered means acknowledged ---------------------------------------------------

  lemma DeliveredMeansAcknowledged(c: Config, s: State, acts: seq<Action>, k: Key)
    requires ValidConfig(c) && Initial(s) && Runs(c, s, acts)
    requires var e := EndState(c, s, acts); k in e.q && e.q[k].status.Delivered?
    ensures exists j :: AcknowledgedAt(c, s, acts, j, k)
  {
    FromInitial(c, s, acts);
    AckedAtSomeStep(c, s, acts, k);
  }

  /** Step j of the run is a 2xx answer to a payload of k's subscription that contains k. */
  ghost predicate AcknowledgedAt(c: Config, s: State, acts: seq<Action>, j: int, k: Key)
    requires Runs(c, s, acts)
  {
    && 0 <= j < |acts|
    && acts[j].Work? && acts[j].w == Post(Ack)
    && (RunSplit(c, s, acts, j); var t := EndState(c, s, acts[..j]);
        && Enabled(c, t, acts[j]) && WorkEnabled(c, t, acts[j].i, acts[j].w)
        && t.pass.ids[acts[j].i] == k.sub
        && k.seqNo in t.pass.workers[acts[j].i].payload)
  }

  /** A run can be cut anywhere: the first j actions are a run, and the next is enabled. */
  lemma {:induction false} RunSplit(c: Config, s: State, acts: seq<Action>, j: nat)
    requires Runs(c, s, acts) && j <= |acts|
    ensures Runs(c, s, acts[..j])
    ensures j < |acts| ==> Enabled(c, EndState(c, s, acts[..j]), acts[j])
    ensures Runs(c, EndState(c, s, acts[..j]), acts[j..])
    ensures EndState(c, EndState(c, s, acts[..j]), acts[j..]) == EndState(c, s, acts)
    decreases j
  {
    if j > 0 {
      var rest := acts[1..];
      RunSplit(c, Apply(c, s, acts[0]), rest, j - 1);
      assert acts[..j][1..] == rest[..j - 1];
      assert rest[j - 1..] == acts[j..];
    } else {
      assert acts[..0] == [] && acts[0..] == acts;
    }
  }

  /** Only a 2xx answer adds to the acknowledged rows, and only the rows it carried. */
  lemma AckComesFromPost(c: Config, s: State, a: Action, k: Key)
    requires Enabled(c, s, a) && k !in s.h.acked && k in Apply(c, s, a).h.acked
    ensures a.Work? && a.w == Post(Ack) && s.pass.ids[a.i] == k.sub && k.seqNo in s.pass.workers[a.i].payload
  {
    if a.Work? {
      TableEffects(c, s, a.i, a.w);
      hide Effect, NextPc;
    } else {
      hide EnqueueRows, RequeueRows, PurgeRows, DropRows, RecoverRows, Bump, Clear, AdvanceCursor;
    }
  }

  lemma {:induction false} AckedAtSomeStep(c: Config, s: State, acts: seq<Action>, k: Key)
    requires Runs(c, s, acts)
    requires k in EndState(c, s, acts).h.acked && k !in s.h.acked
    ensures exists j :: AcknowledgedAt(c, s, acts, j, k)
    decreases |acts|
  {
    hide Apply, Enabled;
    var n := |acts| - 1;
    RunSplit(c, s, acts, n);
    var t := EndState(c, s, acts[..n]);
    assert acts[n..] == [acts[n]];
    assert EndState(c, t, acts[n..]) == Apply(c, t, acts[n]);
    if k in t.h.acked {
      AckedAtSomeStep(c, s, acts[..n], k);
      var j :| AcknowledgedAt(c, s, acts[..n], j, k);
      assert acts[..n][..j] == acts[..j];
      assert AcknowledgedAt(c, s, acts, j, k);
    } else {
      AckComesFromPost(c, t, acts[n], k);
      assert AcknowledgedAt(c, s, acts, n, k);
    }
  }

  /** The only actions that take the delivered mark from a row. */
  predicate Undoes(a: Action, k: Key) {
    a.Env? && match a.e
              case Requeue(_, status, _, chosen) => status.Delivered? && k in chosen
              case Purge(gone) => k.seqNo in gone
              case DeleteSub(id) => k.sub == id
              case _ => false
  }

  ghost predicate IsDelivered(s: State, k: Key) {
    k in s.q && s.q[k].status.Delivered?
  }

  lemma DeliveredStepwise(c: Config, s: State, a: Action, k: Key)
    requires ValidConfig(c) && Inv(c, s) && Enabled(c, s, a) && IsDelivered(s, k)
    ensures IsDelivered(Apply(c, s, a), k) <==> !Undoes(a, k)
  {
    match a
    case Env(e) =>
    case Proc(p) =>
    case Work(i, w) =>
      assert WorkerOk(c, s.q, s.now, s.h.acked, s.pass.ids[i], s.pass.workers[i]);
      RowEffect(c, s, i, w, k);
      hide Effect, NextPc, Inv;
  }

  /** A delivered row stays delivered through any run that does not requeue delivered
      rows, purge its event or delete its subscription. */
  lemma {:induction false} DeliveredStays(c: Config, s: State, acts: seq<Action>, k: Key)
    requires ValidConfig(c) && Inv(c, s) && Runs(c, s, acts) && IsDelivered(s, k)
    requires forall a :: a in acts ==> !Undoes(a, k)
    ensures IsDelivered(EndState(c, s, acts), k)
    decreases |acts|
  {
    if acts != [] {
      DeliveredStepwise(c, s, acts[0], k);
      StepKeeps(c, s, acts[0]);
      DeliveredStays(c, Apply(c, s, acts[0]), acts[1..], k);
    }
  }

  // ---- No enqueued work is lost -------------------------------------------------------

  /** The rows the queue owes after one more action, read off the action alone. */
  function OwedAfter(owed: set<Key>, a: Action): set<Key> {
    if !a.Env? then owed else
      match a.e
      case Enqueue(sub, seqs) => owed + BatchKeys(sub, seqs)
      case Purge(gone) => set k | k in owed && k.seqNo !in gone
      case DeleteSub(id) => set k | k in owed && k.sub != id
      case _ => owed
  }

  function Owed(owed: set<Key>, acts: seq<Action>): set<Key>
    decreases |acts|
  {
    if acts == [] then owed else Owed(OwedAfter(owed, acts[0]), acts[1..])
  }

  lemma {:induction false} NothingLost(c: Config, s: State, acts: seq<Action>)
    requires Runs(c, s, acts)
    ensures EndState(c, s, acts).q.Keys == Owed(s.q.Keys, acts)
    decreases |acts|
  {
    if acts != [] {
      var s' := Apply(c, s, acts[0]);
      if acts[0].Work? {
        OwnRowsOnly(c, s, acts[0].i, acts[0].w);
      }
      assert s'.q.Keys == OwedAfter(s.q.Keys, acts[0]);
      NothingLost(c, s', acts[1..]);
    }
  }

  /** The events retained after one more action, read off the action alone. */
  function RetainedAfter(kept: set<nat>, a: Action): set<nat> {
    match a
    case Env(Publish(n)) => kept + {n}
    case Env(Purge(gone)) => kept - gone
    case _ => kept
  }

  function KeptBy(kept: set<nat>, acts: seq<Action>): set<nat>
    decreases |acts|
  {
    if acts == [] then kept else KeptBy(RetainedAfter(kept, acts[0]), acts[1..])
  }

  /** Events come and go by publishing and purging alone: delivery never touches the log. */
  lemma {:induction false} LogIsUntouched(c: Config, s: State, acts: seq<Action>)
    requires Runs(c, s, acts)
    ensures EndState(c, s, acts).retained == KeptBy(s.retained, acts)
    decreases |acts|
  {
    if acts != [] {
      var a := acts[0];
      if a.Work? {
        TableEffects(c, s, a.i, a.w);
      }
      assert Apply(c, s, a).retained == RetainedAfter(s.retained, a);
      hide Apply, Enabled, RetainedAfter;
      LogIsUntouched(c, Apply(c, s, a), acts[1..]);
    }
  }

  /** A requeue changes only rows of the status and subscription asked for, at most as many
      as the limit, and makes each of them pending and never tried. */
  lemma RequeueStaysInScope(s: State, scope: Option<SubId>, status: Status, limit: int, chosen: set<Key>)
    requires EnvEnabled(s, Requeue(scope, status, limit, chosen))
    ensures var q' := EnvApply(s, Requeue(scope, status, limit, chosen)).q;
            && q'.Keys == s.q.Keys && |chosen| <= (if limit <= 0 then 100 else limit)
            && forall k :: k in s.q ==>
                 if k in chosen then
                   && s.q[k].status == status && (scope.Some? ==> k.sub == scope.value)
                   && q'[k] == Row(0, Pending, None)
                 else q'[k] == s.q[k]
  {
    hide Renew;
  }

  /** The steps that leave a batch in flight with nobody to settle it. */
  predicate Abandons(a: Action) {
    || a == Proc(Crash)
    || (a.Work? && (a.w in {LeaseWrite(WrittenWithError), Fetch(false), Park(Failed)} || (a.w.Record? && !a.w.written)))
  }

  /** Step m of the run makes k pending anew. */
  ghost predicate RenewedAt(c: Config, s: State, acts: seq<Action>, m: int, k: Key)
    requires Runs(c, s, acts)
  {
    0 <= m < |acts| && (RunSplit(c, s, acts, m); k in B.Renewed(EndState(c, s, acts[..m]), acts[m]))
  }

  /** Step j of the run is a crash with k in flight, or its worker letting go of the batch
      that holds k without settling it; and k was not made pending anew since. */
  ghost predicate AbandonedAt(c: Config, s: State, acts: seq<Action>, j: int, k: Key)
    requires Runs(c, s, acts)
  {
    && 0 <= j < |acts|
    && (RunSplit(c, s, acts, j); var t := EndState(c, s, acts[..j]);
        Enabled(c, t, acts[j]) && LetsGo(c, t, acts[j], k))
    && forall m :: j < m < |acts| ==> !RenewedAt(c, s, acts, m, k)
  }

  ghost predicate LetsGo(c: Config, t: State, a: Action, k: Key)
    requires Enabled(c, t, a)
  {
    && Abandons(a)
    && if a.Proc? then k in InflightKeys(t.q)
       else t.pass.ids[a.i] == k.sub && k.seqNo in t.pass.workers[a.i].lease.seqs
  }

  predicate Astray(h: History, k: Key) {
    k in h.stranded || k in h.leftover
  }

  lemma AstrayEnv(s: State, e: EnvStep, k: Key)
    requires EnvEnabled(s, e) && Astray(EnvApply(s, e).h, k)
    ensures Astray(s.h, k) && k !in B.Renewed(s, Env(e))
  {
    hide Bump, Clear, AdvanceCursor, EnqueueRows, RequeueRows, PurgeRows, DropRows;
  }

  lemma AstrayWork(c: Config, s: State, i: nat, w: WorkStep, k: Key)
    requires WorkEnabled(c, s, i, w) && Astray(WorkApply(c, s, i, w).h, k)
    ensures Astray(s.h, k) || LetsGo(c, s, Work(i, w), k)
  {
    StrandedBy(c, s, i, w);
    hide Effect, NextPc;
  }

  /** A row goes astray only when it is let go of, and no longer is once made pending. */
  lemma AstrayStep(c: Config, s: State, a: Action, k: Key)
    requires Enabled(c, s, a) && Astray(Apply(c, s, a).h, k)
    ensures LetsGo(c, s, a, k) || (Astray(s.h, k) && k !in B.Renewed(s, a))
  {
    match a
    case Env(e) => AstrayEnv(s, e, k);
    case Proc(p) => hide Bump, Clear, DuePage;
    case Work(i, w) => AstrayWork(c, s, i, w, k);
  }

  lemma {:induction false} AstrayWasAbandoned(c: Config, s: State, acts: seq<Action>, k: Key)
    requires Runs(c, s, acts) && !Astray(s.h, k) && Astray(EndState(c, s, acts).h, k)
    ensures exists j :: AbandonedAt(c, s, acts, j, k)
    decreases |acts|
  {
    hide Apply, Enabled, LetsGo, Astray;
    var n := |acts| - 1;
    RunSplit(c, s, acts, n);
    var t := EndState(c, s, acts[..n]);
    assert acts[n..] == [acts[n]];
    assert EndState(c, t, acts[n..]) == Apply(c, t, acts[n]);
    AstrayStep(c, t, acts[n], k);
    if LetsGo(c, t, acts[n], k) {
      assert AbandonedAt(c, s, acts, n, k);
    } else {
      AstrayWasAbandoned(c, s, acts[..n], k);
      var j :| AbandonedAt(c, s, acts[..n], j, k);
      StillAbandoned(c, s, acts, j, k);
    }
  }

  lemma StillAbandoned(c: Config, s: State, acts: seq<Action>, j: int, k: Key)
    requires Runs(c, s, acts) && acts != [] && Runs(c, s, acts[..|acts| - 1])
    requires AbandonedAt(c, s, acts[..|acts| - 1], j, k) && !RenewedAt(c, s, acts, |acts| - 1, k)
    ensures AbandonedAt(c, s, acts, j, k)
  {
    var before := acts[..|acts| - 1];
    assert before[..j] == acts[..j];
    forall m | j < m < |acts| ensures !RenewedAt(c, s, acts, m, k) {
      if m < |acts| - 1 {
        assert before[..m] == acts[..m];
        assert !RenewedAt(c, s, before, m, k);
      }
    }
  }

  /** A row in flight is held by a live worker, or some step of the run crashed or let go of
      its very batch and it was not recovered since; and its retry time has passed, so a
      recovery makes it due at once. */
  lemma InflightHasAReason(c: Config, s: State, acts: seq<Action>, k: Key)
    requires ValidConfig(c) && Initial(s) && Runs(c, s, acts)
    requires var e := EndState(c, s, acts); k in e.q && e.q[k].status.Inflight?
    ensures var e := EndState(c, s, acts);
            && (Held(e, k) || exists j :: AbandonedAt(c, s, acts, j, k))
            && (!e.up ==> exists j :: AbandonedAt(c, s, acts, j, k))
            && Due(RecoverRows(e.q)[k], e.now)
  {
    FromInitial(c, s, acts);
    if Astray(EndState(c, s, acts).h, k) {
      AstrayWasAbandoned(c, s, acts, k);
    }
    hide AbandonedAt;
  }

  /** In a run without a crash, a failed outcome write or a failed event fetch, every row in
      flight is in the hands of a live worker. */
  lemma InflightIsHeld(c: Config, s: State, acts: seq<Action>, k: Key)
    requires ValidConfig(c) && Initial(s) && Runs(c, s, acts)
    requires forall a :: a in acts ==> !Abandons(a)
    requires var e := EndState(c, s, acts); k in e.q && e.q[k].status.Inflight?
    ensures Held(EndState(c, s, acts), k)
  {
    InflightHasAReason(c, s, acts, k);
    if j :| AbandonedAt(c, s, acts, j, k) {
      assert Abandons(acts[j]) && acts[j] in acts;
    }
  }

  /** A process start whose recovery succeeds leaves nothing in flight, changes no other
      row, and makes every recovered row due at once with its attempts kept. */
  lemma RecoveryEmptiesInflight(c: Config, s: State)
    requires ValidConfig(c) && Inv(c, s) && !s.up
    ensures var s' := ProcApply(c, s, Boot(true));
            && InflightKeys(s'.q) == {} && s'.q.Keys == s.q.Keys
            && (forall k :: k in s.q && s.q[k].status.Inflight? ==>
                  Due(s'.q[k], s.now) && s'.q[k].attempt == s.q[k].attempt)
            && (forall k :: k in s.q && !s.q[k].status.Inflight? ==> s'.q[k] == s.q[k])
  {
  }

  // ---- What an answer leads to --------------------------------------------------------

  /** Recording an answer: 2xx delivers the batch and moves the cursor, an answer that is not
      retryable buries it, and so does a retryable one when the head has used its attempts
      up; otherwise the rows wait for the retry time. An unwritten outcome changes nothing. */
  lemma RecordRow(c: Config, s: State, i: nat, written: bool, at: Time, k: Key)
    requires WorkEnabled(c, s, i, Record(written, at)) && k in s.q
    ensures var s', pc, r := WorkApply(c, s, i, Record(written, at)), s.pass.workers[i], s.q[k];
            && k in s'.q
            && s'.q[k] == if !written || k.sub != s.pass.ids[i] || k.seqNo !in pc.lease.seqs then r
                          else if pc.answer.Ack? then Row(r.attempt, Delivered, None)
                          else if pc.answer.Final? || pc.lease.headAttempt + 1 >= c.maxAttempts then
                            Row(r.attempt, Dead, None)
                          else Row(r.attempt, Pending, Some(at))
  {
    RowEffect(c, s, i, Record(written, at), k);
    hide Effect;
  }

  /** Fetching finds exactly the retained events of the leased rows, in order. */
  lemma FetchesWhatIsRetained(c: Config, s: State, i: nat)
    requires WorkEnabled(c, s, i, Fetch(true))
    ensures var b, pc' := s.pass.workers[i].lease, NextPc(c, s, i, Fetch(true));
            && pc'.Fetched? && pc'.lease == b && Ascending(pc'.payload)
            && forall n :: n in pc'.payload <==> n in b.seqs && n in s.retained
  {
    hide Ascending, Effect;
  }

  /** A batch is posted exactly when its events are all there, and parked exactly when one is
      missing. */
  lemma PostsWhatIsThere(c: Config, s: State, acts: seq<Action>, i: nat)
    requires ValidConfig(c) && Initial(s) && Runs(c, s, acts)
    requires var e := EndState(c, s, acts); Live(e, i) && e.pass.workers[i].Fetched?
    ensures var e := EndState(c, s, acts);
            var b, p := e.pass.workers[i].lease, e.pass.workers[i].payload;
            && (forall reply :: WorkEnabled(c, e, i, Post(reply)) <==> p == b.seqs)
            && (forall result :: WorkEnabled(c, e, i, Park(result)) <==> exists n :: n in b.seqs && n !in p)
  {
    FromInitial(c, s, acts);
    var e := EndState(c, s, acts);
    var b, p := e.pass.workers[i].lease, e.pass.workers[i].payload;
    assert WorkerOk(c, e.q, e.now, e.h.acked, e.pass.ids[i], e.pass.workers[i]);
    hide Inv, Runs, EndState;
    if |p| == |b.seqs| {
      AscendingEqual(p, b.seqs);
    }
    if forall n :: n in b.seqs ==> n in p {
      assert Elements(p) == Elements(b.seqs);
      AscendingSame(p, b.seqs);
    }
  }

  // ---- Who is served ------------------------------------------------------------------

  /** Deliveries go to active push subscriptions with an endpoint. */
  predicate Served(s: State, id: SubId) {
    id in s.subs && s.subs[id].status.Active? && s.subs[id].mode.Push? && s.subs[id].endpoint != ""
  }

  /** A worker ends exactly if its subscription is not served or cannot be read, the context
      is cancelled, nothing is due, or a lease, a fetch or the parking of a batch fails; no
      answer and no failed outcome write ends it. */
  lemma WorkerReturns(c: Config, s: State, i: nat, w: WorkStep)
    requires WorkEnabled(c, s, i, w)
    ensures NextPc(c, s, i, w).Returned? <==>
              match w
              case Lookup(ok) => !ok || !Served(s, s.pass.ids[i])
              case Abort => true
              case Select => forall k :: k in s.q && k.sub == s.pass.ids[i] ==> !Due(s.q[k], s.now)
              case LeaseWrite(result) => !result.Written?
              case Fetch(ok) => !ok
              case Park(result) => !result.Written?
              case _ => false
    ensures s.pass.workers[i].Loop? <==> WorkEnabled(c, s, i, Abort)
    ensures w.Lookup? || w.Record? || w.Park? ==> NextPc(c, s, i, w).Returned? || NextPc(c, s, i, w).Loop?
  {
    hide DueBatch, Payload, Due;
    if w.Select? {
      SelectsWhatIsDue(c, s, s.pass.ids[i]);
    }
  }

  lemma SelectsWhatIsDue(c: Config, s: State, id: SubId)
    ensures DueBatch(s.q, id, s.now, c.batchSize) == [] <==> forall k :: k in s.q && k.sub == id ==> !Due(s.q[k], s.now)
  {
    BatchIsLowestDue(s.q, id, s.now, c.batchSize);
    hide DueBatch, Due;
    if k :| k in s.q && k.sub == id && Due(s.q[k], s.now) {
      assert k == Key(id, k.seqNo);
      assert k.seqNo in DueSeqs(s.q, id, s.now);
    }
    if DueBatch(s.q, id, s.now, c.batchSize) != [] {
      var n := DueBatch(s.q, id, s.now, c.batchSize)[0];
      assert n in DueBatch(s.q, id, s.now, c.batchSize);
      assert Due(s.q[Key(id, n)], s.now);
    }
  }

  /** No worker of `id` is past its lookup. */
  ghost predicate NotServing(s: State, id: SubId) {
    forall i :: Live(s, i) && s.pass.ids[i] == id ==>
      var pc := s.pass.workers[i]; pc.Start? || pc.Returned? || pc.Released? || pc.Finished?
  }

  predicate Resumes(a: Action, id: SubId) {
    a.Env? && match a.e
              case SetStatus(x, to) => x == id && to.Active?
              case CreateSub(x, _) => x == id
              case _ => false
  }

  /** The action leases rows of `id` or posts them. */
  predicate Delivers(s: State, a: Action, id: SubId) {
    a.Work? && Live(s, a.i) && s.pass.ids[a.i] == id && (a.w.LeaseWrite? || a.w.Post?)
  }

  ghost predicate NeverDelivers(c: Config, s: State, acts: seq<Action>, id: SubId)
    requires Runs(c, s, acts)
    decreases |acts|
  {
    acts != [] ==> !Delivers(s, acts[0], id) && NeverDelivers(c, Apply(c, s, acts[0]), acts[1..], id)
  }

  lemma SuspendedEnv(s: State, e: EnvStep, id: SubId)
    requires EnvEnabled(s, e) && !Served(s, id) && !Resumes(Env(e), id)
    ensures !Served(EnvApply(s, e), id) && EnvApply(s, e).pass == s.pass
  {
    hide EnqueueRows, RequeueRows, PurgeRows, DropRows, Renew, AddInput;
  }

  lemma SuspendedWork(c: Config, s: State, i: nat, w: WorkStep, id: SubId)
    requires WorkEnabled(c, s, i, w) && !Served(s, id) && NotServing(s, id)
    ensures !Delivers(s, Work(i, w), id)
    ensures !Served(WorkApply(c, s, i, w), id) && NotServing(WorkApply(c, s, i, w), id)
  {
    TableEffects(c, s, i, w);
    OwnRowsOnly(c, s, i, w);
    WorkerReturns(c, s, i, w);
    hide Effect;
    forall j | Live(WorkApply(c, s, i, w), j) ensures Live(s, j) {}
  }

  lemma SuspendedStep(c: Config, s: State, a: Action, id: SubId)
    requires Enabled(c, s, a) && !Served(s, id) && NotServing(s, id) && !Resumes(a, id)
    ensures !Delivers(s, a, id)
    ensures !Served(Apply(c, s, a), id) && NotServing(Apply(c, s, a), id)
  {
    match a
    case Env(e) =>
      SuspendedEnv(s, e, id);
      hide Served, EnvApply;
    case Proc(p) => hide DuePage, Renew, RecoverRows;
    case Work(i, w) => SuspendedWork(c, s, i, w, id);
  }

  /** A pause gates delivery: from when a subscription is not served and no worker is past
      its lookup, nothing of it is leased or posted until it is resumed or created anew. */
  lemma {:induction false} PauseHolds(c: Config, s: State, acts: seq<Action>, id: SubId)
    requires Runs(c, s, acts) && !Served(s, id) && NotServing(s, id)
    requires forall a :: a in acts ==> !Resumes(a, id)
    ensures NeverDelivers(c, s, acts, id)
    decreases |acts|
  {
    hide Apply, Enabled, Served, NotServing, Resumes, Delivers;
    if acts != [] {
      SuspendedStep(c, s, acts[0], id);
      PauseHolds(c, Apply(c, s, acts[0]), acts[1..], id);
    }
  }

  /** Setting a status does what it says, to that subscription alone. */
  lemma StatusIsSet(s: State, id: SubId, to: SubStatus)
    requires id in s.subs
    ensures var s' := EnvApply(s, SetStatus(id, to));
            && s'.subs.Keys == s.subs.Keys && s'.subs[id] == s.subs[id].(status := to)
            && (forall x :: x in s.subs && x != id ==> s'.subs[x] == s.subs[x])
            && (!to.Active? ==> !Served(s', id)) && s'.q == s.q && s'.pass == s.pass
  {
  }

  // ---- Leases are exclusive -----------------------------------------------------------

  /** No two workers of a pass serve one subscription, so none of its rows is held twice. */
  lemma LeasesExclusive(c: Config, s: State, acts: seq<Action>, i: nat, j: nat)
    requires ValidConfig(c) && Initial(s) && Runs(c, s, acts)
    requires var e := EndState(c, s, acts); Live(e, i) && Live(e, j) && e.pass.ids[i] == e.pass.ids[j]
    ensures i == j
  {
    FromInitial(c, s, acts);
  }

  /** The workers that have not yet given their token back. */
  function Running(ws: seq<Pc>): set<nat> {
    set i: nat | i < |ws| && !ws[i].Released? && !ws[i].Finished?
  }

  lemma {:induction false} RunningCount(ws: seq<Pc>)
    ensures |Running(ws)| == Holding(ws)
  {
    if ws != [] {
      var n := |ws| - 1;
      RunningCount(ws[..n]);
      assert Running(ws) == Running(ws[..n]) + (if ws[n].Released? || ws[n].Finished? then {} else {n});
    }
  }

  /** A pass waits for its workers only after it has started the last of them. */
  lemma SpawnsFirst(c: Config, s: State, acts: seq<Action>)
    requires ValidConfig(c) && Initial(s) && Runs(c, s, acts)
    requires var p := EndState(c, s, acts).pass; p.Draining? && |p.workers| < |p.ids|
    ensures EndState(c, s, acts).pass.collected == 0
  {
    FromInitial(c, s, acts);
  }

  /** In every reachable state of a pass at most Concurrency workers run. */
  lemma ConcurrencyIsBounded(c: Config, s: State, acts: seq<Action>)
    requires ValidConfig(c) && Initial(s) && Runs(c, s, acts) && EndState(c, s, acts).pass.Draining?
    ensures |Running(EndState(c, s, acts).pass.workers)| <= c.concurrency
  {
    FromInitial(c, s, acts);
    RunningCount(EndState(c, s, acts).pass.workers);
  }

  // ---- The cursor ---------------------------------------------------------------------

  /** What has been written to the cursor of `id` since it was last created, after one more
      action: its initial value, acks, and the last seq of batches marked delivered. */
  function WrittenAfter(s: State, a: Action, id: SubId, written: seq<int>): seq<int> {
    match a
    case Env(CreateSub(x, record)) => if x == id then [record.cursor] else written
    case Env(AckCursor(x, v)) => if x == id then written + [v] else written
    case Work(i, Record(true, _)) =>
      if Live(s, i) && s.pass.ids[i] == id && id in s.subs
         && s.pass.workers[i].Posted? && s.pass.workers[i].answer.Ack? && s.pass.workers[i].lease.seqs != []
      then var seqs := s.pass.workers[i].lease.seqs; written + [seqs[|seqs| - 1]]
      else written
    case _ => written
  }

  function Written(c: Config, s: State, acts: seq<Action>, id: SubId, written: seq<int>): seq<int>
    requires Runs(c, s, acts)
    decreases |acts|
  {
    if acts == [] then written
    else Written(c, Apply(c, s, acts[0]), acts[1..], id, WrittenAfter(s, acts[0], id, written))
  }

  function InputsOf(h: History, id: SubId): seq<int> {
    if id in h.inputs then h.inputs[id] else []
  }

  lemma InputsEnv(s: State, e: EnvStep, id: SubId)
    requires EnvEnabled(s, e)
    ensures InputsOf(EnvApply(s, e).h, id) == WrittenAfter(s, Env(e), id, InputsOf(s.h, id))
  {
    hide Bump, Clear, AdvanceCursor, EnqueueRows, RequeueRows, PurgeRows, DropRows;
  }

  lemma InputsStep(c: Config, s: State, a: Action, id: SubId)
    requires Enabled(c, s, a)
    ensures InputsOf(Apply(c, s, a).h, id) == WrittenAfter(s, a, id, InputsOf(s.h, id))
  {
    match a
    case Env(e) =>
      InputsEnv(s, e, id);
      hide EnvApply, WrittenAfter, InputsOf;
    case Proc(p) => hide Bump, Clear, DuePage;
    case Work(i, w) =>
      TableEffects(c, s, i, w);
      hide Effect, NextPc, AdvanceCursor;
  }

  lemma {:induction false} InputsAreWritten(c: Config, s: State, acts: seq<Action>, id: SubId)
    requires Runs(c, s, acts)
    ensures InputsOf(EndState(c, s, acts).h, id) == Written(c, s, acts, id, InputsOf(s.h, id))
    decreases |acts|
  {
    hide Apply, Enabled, WrittenAfter;
    if acts != [] {
      InputsStep(c, s, acts[0], id);
      InputsAreWritten(c, Apply(c, s, acts[0]), acts[1..], id);
    }
  }

  /** Whatever the order of acks and deliveries, a cursor is the maximum of what was ever
      written to it since its subscription was created. */
  lemma CursorIsRunningMaximum(c: Config, s: State, acts: seq<Action>, id: SubId)
    requires ValidConfig(c) && Initial(s) && Runs(c, s, acts) && id in EndState(c, s, acts).subs
    ensures IsMaxOf(EndState(c, s, acts).subs[id].cursor, Written(c, s, acts, id, []))
  {
    FromInitial(c, s, acts);
    InputsAreWritten(c, s, acts, id);
  }

  ghost predicate Covered(s: State) {
    forall k :: IsDelivered(s, k) && k.sub in s.subs ==> k.seqNo <= s.subs[k.sub].cursor
  }

  /** The subscription is created over a delivered row left behind under its id. */
  ghost predicate CreatesUnder(s: State, a: Action) {
    && a.Env? && a.e.CreateSub?
    && exists k :: IsDelivered(s, k) && k.sub == a.e.id && k.seqNo > a.e.record.cursor
  }

  /** One step keeps every cursor at or above the delivered rows, unless it recreates a
      subscription over delivered rows above the new cursor. */
  lemma CoverStep(c: Config, s: State, a: Action)
    requires ValidConfig(c) && Inv(c, s) && Enabled(c, s, a) && Covered(s)
    ensures Covered(Apply(c, s, a)) <==> !CreatesUnder(s, a)
  {
    match a
    case Env(e) => EnvCovers(s, e);
    case Proc(p) =>
      var s' := ProcApply(c, s, p);
      forall k | IsDelivered(s', k) ensures IsDelivered(s, k) {}
    case Work(i, w) => WorkCovers(c, s, i, w);
  }

  lemma EnvCovers(s: State, e: EnvStep)
    requires EnvEnabled(s, e) && Covered(s)
    ensures Covered(EnvApply(s, e)) <==> !CreatesUnder(s, Env(e))
  {
  }

  lemma WorkCovers(c: Config, s: State, i: nat, w: WorkStep)
    requires WorkEnabled(c, s, i, w) && Inv(c, s) && Covered(s)
    ensures Covered(WorkApply(c, s, i, w))
  {
    var s' := WorkApply(c, s, i, w);
    var pc := s.pass.workers[i];
    assert WorkerOk(c, s.q, s.now, s.h.acked, s.pass.ids[i], pc);
    OwnRowsOnly(c, s, i, w);
    TableEffects(c, s, i, w);
    hide Effect, NextPc, Inv;
    forall k | IsDelivered(s', k) && k.sub in s'.subs ensures k.seqNo <= s'.subs[k.sub].cursor {
      RowEffect(c, s, i, w, k);
      if !IsDelivered(s, k) {
        assert w.Record? && k.seqNo in pc.lease.seqs;
      }
    }
  }

  ghost predicate AlwaysCovered(c: Config, s: State, acts: seq<Action>)
    requires Runs(c, s, acts)
    decreases |acts|
  {
    Covered(s) && (acts != [] ==> AlwaysCovered(c, Apply(c, s, acts[0]), acts[1..]))
  }

  ghost predicate CleanCreates(c: Config, s: State, acts: seq<Action>)
    requires Runs(c, s, acts)
    decreases |acts|
  {
    acts != [] ==> !CreatesUnder(s, acts[0]) && CleanCreates(c, Apply(c, s, acts[0]), acts[1..])
  }

  /** Exactly when the cursor never falls below a delivered row: no subscription of the run
      is created over leftover delivered rows. */
  lemma {:induction false} CursorCoversDelivered(c: Config, s: State, acts: seq<Action>)
    requires ValidConfig(c) && Inv(c, s) && Runs(c, s, acts) && Covered(s)
    ensures AlwaysCovered(c, s, acts) <==> CleanCreates(c, s, acts)
    decreases |acts|
  {
    if acts != [] {
      CoverStep(c, s, acts[0]);
      StepKeeps(c, s, acts[0]);
      if !CreatesUnder(s, acts[0]) {
        CursorCoversDelivered(c, Apply(c, s, acts[0]), acts[1..]);
      }
    }
  }
}
