/** What every step of the delivery protocol keeps, and what follows for whole runs.
    Each worker's claim about its own rows is stable under everything the others may do
    to them (`Tame`), so the invariant is checked one actor at a time. */
module Safety {
  import opened Common
  import opened Queue
  import opened Protocol

  // ---- The invariant ------------------------------------------------------------------

  ghost predicate BatchOk(c: Config, b: Lease) {
    b.seqs != [] && Ascending(b.seqs) && |b.seqs| <= c.batchSize
  }

  ghost predicate Ready(r: Row, now: Time) {
    r.nextRetry.None? || r.nextRetry.value <= now
  }

  /** A leased row that still exists is pending or in flight: nobody else settles it. */
  ghost predicate Open(q: Deliveries, id: SubId, b: Lease) {
    forall n :: n in b.seqs && Key(id, n) in q ==> q[Key(id, n)].status in {Pending, Inflight}
  }

  ghost predicate SelectedOk(q: Deliveries, now: Time, id: SubId, b: Lease)
    requires b.seqs != []
  {
    && (forall n :: n in b.seqs && Key(id, n) in q ==> Due(q[Key(id, n)], now))
    && (Key(id, b.seqs[0]) in q ==> q[Key(id, b.seqs[0])].attempt <= b.headAttempt)
  }

  ghost predicate WorkerOk(c: Config, q: Deliveries, now: Time, acked: set<Key>, id: SubId, pc: Pc) {
    match pc
    case Selected(b) => BatchOk(c, b) && SelectedOk(q, now, id, b)
    case Leased(b) => BatchOk(c, b) && Open(q, id, b)
    case Fetched(b, p) => BatchOk(c, b) && Open(q, id, b) && Ascending(p) && forall n :: n in p ==> n in b.seqs
    case Posted(b, a) => BatchOk(c, b) && Open(q, id, b) && (a.Ack? ==> BatchKeys(id, b.seqs) <= acked)
    case _ => true
  }

  ghost predicate WorkersOk(c: Config, s: State) {
    forall i :: Live(s, i) ==> WorkerOk(c, s.q, s.now, s.h.acked, s.pass.ids[i], s.pass.workers[i])
  }

  ghost predicate Distinct(ids: seq<SubId>) {
    forall i, j :: 0 <= i < j < |ids| ==> ids[i] != ids[j]
  }

  /** Workers that have not yet taken their token out of `sem`. */
  function Holding(ws: seq<Pc>): nat {
    if ws == [] then 0
    else Holding(ws[..|ws| - 1]) + (if ws[|ws| - 1].Released? || ws[|ws| - 1].Finished? then 0 else 1)
  }

  function Ended(ws: seq<Pc>): nat {
    if ws == [] then 0 else Ended(ws[..|ws| - 1]) + (if ws[|ws| - 1].Finished? then 1 else 0)
  }

  ghost predicate PassOk(c: Config, p: Pass) {
    p.Draining? ==>
      && |p.workers| <= |p.ids| && Distinct(p.ids)
      && p.sem == Holding(p.workers) <= c.concurrency
      && p.done + p.collected == Ended(p.workers)
      && p.collected < |p.ids| && (|p.workers| < |p.ids| ==> p.collected == 0)
  }

  ghost predicate HoldsRow(pc: Pc, n: nat) {
    (pc.Leased? || pc.Fetched? || pc.Posted?) && n in pc.lease.seqs
  }

  ghost predicate Held(s: State, k: Key) {
    exists i :: Live(s, i) && s.pass.ids[i] == k.sub && HoldsRow(s.pass.workers[i], k.seqNo)
  }

  ghost predicate RowsOk(s: State) {
    forall k :: k in s.q ==>
      && (s.q[k].status.Delivered? ==> k in s.h.acked)
      && (s.q[k].status.Inflight? ==> Ready(s.q[k], s.now))
  }

  ghost predicate InflightAccounted(s: State) {
    forall k :: k in s.q && s.q[k].status.Inflight? ==> Held(s, k) || k in s.h.stranded || k in s.h.leftover
  }

  ghost predicate IsMaxOf(m: int, xs: seq<int>) {
    m in xs && forall x :: x in xs ==> x <= m
  }

  ghost predicate CursorsOk(s: State) {
    forall id :: id in s.subs ==> id in s.h.inputs && IsMaxOf(s.subs[id].cursor, s.h.inputs[id])
  }

  ghost predicate Inv(c: Config, s: State) {
    && (!s.up ==> s.pass.Idle?)
    && PassOk(c, s.pass)
    && WorkersOk(c, s)
    && RowsOk(s)
    && InflightAccounted(s)
    && CursorsOk(s)
  }

  // ---- Interference -------------------------------------------------------------------

  /** Everything that may happen to the rows of `id` behind its worker's back. */
  ghost predicate Tame(q: Deliveries, q': Deliveries, id: SubId) {
    forall k :: k in q' && k.sub == id ==> (k in q && q'[k] == q[k]) || q'[k] == FRESH
  }

  lemma Stable(c: Config, q: Deliveries, q': Deliveries, now: Time, now': Time,
               acked: set<Key>, acked': set<Key>, id: SubId, pc: Pc)
    requires Tame(q, q', id) && now <= now' && acked <= acked'
    requires WorkerOk(c, q, now, acked, id, pc)
    ensures WorkerOk(c, q', now', acked', id, pc)
  {
  }

  lemma EnvTame(s: State, e: EnvStep, id: SubId)
    requires EnvEnabled(s, e)
    ensures Tame(s.q, EnvApply(s, e).q, id)
  {
  }

  lemma EnvRows(s: State, e: EnvStep)
    requires EnvEnabled(s, e) && RowsOk(s) && InflightAccounted(s)
    ensures RowsOk(EnvApply(s, e)) && InflightAccounted(EnvApply(s, e))
  {
    hide Bump, Clear, AdvanceCursor;
    var s' := EnvApply(s, e);
    forall k | k in s'.q
      ensures s'.q[k] == FRESH || (k in s.q && s'.q[k] == s.q[k])
    {
      EnvTame(s, e, k.sub);
    }
    forall k | Held(s, k) ensures Held(s', k) {}
  }

  lemma EnvCursors(s: State, e: EnvStep)
    requires EnvEnabled(s, e) && CursorsOk(s)
    ensures CursorsOk(EnvApply(s, e))
  {
  }

  /** Writing v through the guarded UPDATE keeps the cursor the maximum of its inputs. */
  lemma AdvanceIsMax(s: State, id: SubId, v: int)
    requires CursorsOk(s) && id in s.subs
    ensures forall x :: x in s.subs ==>
              var subs := AdvanceCursor(s.subs, id, v);
              var h := AddInput(s.h, id, v);
              x in subs && x in h.inputs && IsMaxOf(subs[x].cursor, h.inputs[x])
    ensures AdvanceCursor(s.subs, id, v).Keys == s.subs.Keys
  {
  }

  lemma EnvKeeps(c: Config, s: State, e: EnvStep)
    requires EnvEnabled(s, e) && Inv(c, s)
    ensures Inv(c, EnvApply(s, e))
  {
    var s' := EnvApply(s, e);
    EnvRows(s, e);
    EnvCursors(s, e);
    forall i | Live(s', i) ensures WorkerOk(c, s'.q, s'.now, s'.h.acked, s'.pass.ids[i], s'.pass.workers[i]) {
      EnvTame(s, e, s.pass.ids[i]);
      assert Live(s, i);
      Stable(c, s.q, s'.q, s.now, s'.now, s.h.acked, s'.h.acked, s.pass.ids[i], s.pass.workers[i]);
    }
  }

  // ---- Process steps ------------------------------------------------------------------

  lemma PageDistinct(q: Deliveries, now: Time, limit: nat, ids: seq<SubId>)
    requires DuePage(q, now, limit, ids)
    ensures Distinct(ids)
  {
    forall i, j | 0 <= i < j < |ids| ensures ids[i] != ids[j] {
      StringLessIrreflexive(ids[i]);
    }
  }

  lemma ProcKeeps(c: Config, s: State, p: ProcStep)
    requires ProcEnabled(c, s, p) && Inv(c, s)
    ensures Inv(c, ProcApply(c, s, p))
  {
    var s' := ProcApply(c, s, p);
    match p
    case Crash =>
    case Boot(recovered) =>
    case BeginPass(ids) =>
      PageDistinct(s.q, s.now, c.concurrency * 4, ids);
      NothingHeld(s);
    case Spawn =>
      var ws := s'.pass.workers;
      assert ws[..|ws| - 1] == s.pass.workers;
      forall i | Live(s', i) ensures WorkerOk(c, s'.q, s'.now, s'.h.acked, s'.pass.ids[i], ws[i]) {
        assert i < |s.pass.workers| ==> Live(s, i);
      }
      HeldSpawn(s, s');
    case Collect =>
      EndedBound(s.pass.workers);
      if s.pass.collected + 1 == |s.pass.ids| {
        AllEnded(s.pass.workers);
        NothingHeld(s);
      } else {
        forall i | Live(s', i) ensures WorkerOk(c, s'.q, s'.now, s'.h.acked, s'.pass.ids[i], s'.pass.workers[i]) {
          assert Live(s, i);
        }
        forall k | Held(s, k) ensures Held(s', k) {
          var i :| Live(s, i) && s.pass.ids[i] == k.sub && HoldsRow(s.pass.workers[i], k.seqNo);
          assert Live(s', i);
        }
      }
  }

  /** With no pass running, or every worker finished, no row is held. */
  lemma NothingHeld(s: State)
    requires s.pass.Draining? ==> forall i :: Live(s, i) ==> s.pass.workers[i].Finished?
    ensures forall k :: !Held(s, k)
  {
  }

  lemma HeldSpawn(s: State, s': State)
    requires s.pass.Draining? && s'.pass.Draining? && s'.pass.ids == s.pass.ids
    requires s'.pass.workers == s.pass.workers + [Start] && |s'.pass.workers| <= |s.pass.ids|
    ensures forall k :: Held(s, k) ==> Held(s', k)
  {
  }

  lemma EndedBound(ws: seq<Pc>)
    ensures Ended(ws) <= |ws|
  {
  }

  /** A full count of ended workers leaves none running. */
  lemma {:induction false} AllEnded(ws: seq<Pc>)
    requires Ended(ws) == |ws|
    ensures forall i :: 0 <= i < |ws| ==> ws[i].Finished?
  {
    if ws != [] {
      EndedBound(ws[..|ws| - 1]);
      AllEnded(ws[..|ws| - 1]);
    }
  }

  // ---- Worker steps -------------------------------------------------------------------

  lemma {:induction false} CountUpdate(ws: seq<Pc>, i: nat, pc: Pc)
    requires i < |ws|
    ensures Holding(ws[i := pc]) == Holding(ws) - Holding([ws[i]]) + Holding([pc])
    ensures Ended(ws[i := pc]) == Ended(ws) - Ended([ws[i]]) + Ended([pc])
    ensures Holding(ws) >= Holding([ws[i]]) && Ended(ws) >= Ended([ws[i]])
  {
    var n := |ws| - 1;
    var front := ws[..n];
    if i == n {
      assert ws[i := pc][..n] == front;
    } else {
      assert ws[i := pc][..n] == front[i := pc];
      CountUpdate(front, i, pc);
    }
    assert [ws[i]][..0] == [] && [pc][..0] == [];
  }

  lemma MoveCounts(c: Config, s: State, i: nat, w: WorkStep)
    requires WorkEnabled(c, s, i, w) && PassOk(c, s.pass)
    ensures PassOk(c, WorkApply(c, s, i, w).pass)
  {
    var a, b := s.pass.workers[i], NextPc(c, s, i, w);
    CountUpdate(s.pass.workers, i, b);
    assert [a][..0] == [] && [b][..0] == [];
  }

  /** What worker step w makes of one row of its subscription. */
  function RowAfter(c: Config, r: Row, pc: Pc, w: WorkStep, n: nat): Row {
    match w
    case LeaseWrite(result) =>
      if !result.Failed? && pc.Selected? && n in pc.lease.seqs && r.status.Pending?
      then r.(status := Inflight, attempt := r.attempt + 1) else r
    case Park(result) =>
      if !result.Failed? && pc.Fetched? && n in pc.lease.seqs then r.(status := Dead, nextRetry := None) else r
    case Record(written, at) =>
      if !written || !pc.Posted? || n !in pc.lease.seqs then r
      else if pc.answer.Ack? then r.(status := Delivered, nextRetry := None)
      else if Buries(c, pc.lease, pc.answer) then r.(status := Dead, nextRetry := None)
      else r.(status := Pending, nextRetry := Some(at))
    case _ => r
  }

  lemma RowEffect(c: Config, s: State, i: nat, w: WorkStep, k: Key)
    requires WorkEnabled(c, s, i, w) && k in s.q
    ensures k in Effect(c, s, i, w).q
    ensures Effect(c, s, i, w).q[k] ==
              if k.sub == s.pass.ids[i] then RowAfter(c, s.q[k], s.pass.workers[i], w, k.seqNo) else s.q[k]
  {
    hide Bump, AdvanceCursor, Buries;
    match w
    case LeaseWrite(_) =>
    case Record(_, _) =>
    case _ =>
  }

  lemma LeaseCounts(c: Config, s: State, i: nat, result: WriteResult)
    requires WorkEnabled(c, s, i, LeaseWrite(result)) && !result.Failed?
    ensures var t := Effect(c, s, i, LeaseWrite(result)).h;
            var head := {Key(s.pass.ids[i], s.pass.workers[i].lease.seqs[0])};
            && t.lives == s.h.lives && t.leases == s.h.leases + 1
            && t.heads == Bump(s.h.heads, head) && t.turns == Bump(s.h.turns, head)
  {
  }

  lemma OthersCountNothing(c: Config, s: State, i: nat, w: WorkStep)
    requires WorkEnabled(c, s, i, w) && (w.LeaseWrite? ==> w.result.Failed?)
    ensures var t := Effect(c, s, i, w).h;
            t.lives == s.h.lives && t.leases == s.h.leases && t.heads == s.h.heads && t.turns == s.h.turns
  {
    hide DeliverRows, FailRows, TakeLease, AdvanceCursor, Buries, BatchKeys;
    match w
    case Record(_, _) =>
    case _ =>
  }

  /** What a worker step does to the counters. */
  lemma CountEffects(c: Config, s: State, i: nat, w: WorkStep)
    requires WorkEnabled(c, s, i, w)
    ensures var t, leased := Effect(c, s, i, w).h, w.LeaseWrite? && !w.result.Failed?;
            && t.lives == s.h.lives
            && t.leases == s.h.leases + (if leased then 1 else 0)
            && (!leased ==> t.heads == s.h.heads && t.turns == s.h.turns)
            && (leased ==>
                  var head := {Key(s.pass.ids[i], s.pass.workers[i].lease.seqs[0])};
                  t.heads == Bump(s.h.heads, head) && t.turns == Bump(s.h.turns, head))
  {
    hide Effect, Bump;
    if w.LeaseWrite? && !w.result.Failed? {
      LeaseCounts(c, s, i, w.result);
    } else {
      OthersCountNothing(c, s, i, w);
    }
  }

  /** ... and to the acknowledged rows, the retained events and the cursors. */
  lemma TableEffects(c: Config, s: State, i: nat, w: WorkStep)
    requires WorkEnabled(c, s, i, w)
    ensures var t, pc, id := Effect(c, s, i, w), s.pass.workers[i], s.pass.ids[i];
            && t.retained == s.retained
            && t.h.acked == (if w == Post(Ack) then s.h.acked + BatchKeys(id, pc.payload) else s.h.acked)
            && (if w.Record? && w.written && pc.answer.Ack? then
                  var last := pc.lease.seqs[|pc.lease.seqs| - 1];
                  && t.subs == AdvanceCursor(s.subs, id, last)
                  && t.h.inputs == (if id in s.subs then AddInput(s.h, id, last).inputs else s.h.inputs)
                else t.subs == s.subs && t.h.inputs == s.h.inputs)
  {
    hide LeaseRows, DeliverRows, FailRows, Bump, AdvanceCursor, Buries, BatchKeys;
    match w
    case LeaseWrite(_) =>
    case Record(_, _) =>
    case _ =>
  }

  /** A worker that lets go of its batch without settling it strands exactly that batch. */
  lemma StrandedBy(c: Config, s: State, i: nat, w: WorkStep)
    requires WorkEnabled(c, s, i, w)
    ensures var t, pc, id := Effect(c, s, i, w), s.pass.workers[i], s.pass.ids[i];
            var drops := w in {LeaseWrite(WrittenWithError), Fetch(false), Park(Failed)} || (w.Record? && !w.written);
            && t.h.stranded == (if drops then s.h.stranded + BatchKeys(id, pc.lease.seqs) else s.h.stranded)
            && t.h.leftover == s.h.leftover && t.now == s.now
  {
    hide LeaseRows, DeliverRows, FailRows, Bump, AdvanceCursor, Buries, BatchKeys;
    match w
    case LeaseWrite(_) =>
    case Record(_, _) =>
    case _ =>
  }

  /** A worker changes only rows of its own subscription, and never the clock. */
  lemma OwnRowsOnly(c: Config, s: State, i: nat, w: WorkStep)
    requires WorkEnabled(c, s, i, w)
    ensures var s' := Effect(c, s, i, w);
            && s'.q.Keys == s.q.Keys
            && (forall k :: k in s.q && k.sub != s.pass.ids[i] ==> s'.q[k] == s.q[k])
            && s'.now == s.now && s.h.acked <= s'.h.acked && s'.up == s.up && s'.pass == s.pass
            && s'.h.leftover == s.h.leftover && s.h.stranded <= s'.h.stranded
  {
    SameRows(c, s, i, w);
    TableEffects(c, s, i, w);
    StrandedBy(c, s, i, w);
    forall k | k in s.q && k.sub != s.pass.ids[i] ensures Effect(c, s, i, w).q[k] == s.q[k] {
      RowEffect(c, s, i, w, k);
    }
  }

  /** A worker neither adds nor removes rows. */
  lemma SameRows(c: Config, s: State, i: nat, w: WorkStep)
    requires WorkEnabled(c, s, i, w)
    ensures Effect(c, s, i, w).q.Keys == s.q.Keys
    ensures Effect(c, s, i, w).up == s.up && Effect(c, s, i, w).pass == s.pass
  {
    hide Bump, AdvanceCursor, Buries, BatchKeys;
    match w
    case LeaseWrite(_) =>
    case Record(_, _) =>
    case _ =>
  }

  lemma OthersKept(c: Config, s: State, i: nat, w: WorkStep)
    requires WorkEnabled(c, s, i, w) && WorkersOk(c, s) && PassOk(c, s.pass)
    ensures var s' := WorkApply(c, s, i, w);
            forall j :: Live(s', j) && j != i ==>
              WorkerOk(c, s'.q, s'.now, s'.h.acked, s'.pass.ids[j], s'.pass.workers[j])
  {
    var s' := WorkApply(c, s, i, w);
    OwnRowsOnly(c, s, i, w);
    forall j | Live(s', j) && j != i
      ensures WorkerOk(c, s'.q, s'.now, s'.h.acked, s'.pass.ids[j], s'.pass.workers[j])
    {
      assert Live(s, j) && s.pass.ids[j] != s.pass.ids[i];
      Stable(c, s.q, s'.q, s.now, s'.now, s.h.acked, s'.h.acked, s.pass.ids[j], s.pass.workers[j]);
    }
  }

  lemma SelfKept(c: Config, s: State, i: nat, w: WorkStep)
    requires WorkEnabled(c, s, i, w) && WorkersOk(c, s) && ValidConfig(c)
    ensures var s' := WorkApply(c, s, i, w);
            WorkerOk(c, s'.q, s'.now, s'.h.acked, s'.pass.ids[i], s'.pass.workers[i])
  {
    var pc := s.pass.workers[i];
    var id := s.pass.ids[i];
    assert WorkerOk(c, s.q, s.now, s.h.acked, id, pc);
    match w
    case Select =>
      BatchIsLowestDue(s.q, id, s.now, c.batchSize);
    case Post(reply) =>
      AscendingEqual(pc.payload, pc.lease.seqs);
    case _ =>
  }

  /** The rows of worker i after its step: still acked if delivered, ready if in flight,
      and in flight only while held or stranded. */
  lemma RowsKept(c: Config, s: State, i: nat, w: WorkStep, k: Key)
    requires WorkEnabled(c, s, i, w) && Inv(c, s)
    requires k in s.q && k.sub == s.pass.ids[i]
    ensures var s' := WorkApply(c, s, i, w);
            && (s'.q[k].status.Delivered? ==> k in s'.h.acked)
            && (s'.q[k].status.Inflight? ==>
                  && Ready(s'.q[k], s'.now)
                  && (HoldsRow(s'.pass.workers[i], k.seqNo) || k in s'.h.stranded || k in s'.h.leftover))
  {
    assert WorkerOk(c, s.q, s.now, s.h.acked, s.pass.ids[i], s.pass.workers[i]);
    RowEffect(c, s, i, w, k);
    TableEffects(c, s, i, w);
    StrandedBy(c, s, i, w);
    hide Effect;
    if s.q[k].status.Inflight? {
      OnlyHolder(c, s, i, k);
    }
  }

  /** Only the worker serving a subscription can hold its rows. */
  lemma OnlyHolder(c: Config, s: State, i: nat, k: Key)
    requires Live(s, i) && PassOk(c, s.pass) && s.pass.ids[i] == k.sub
    ensures Held(s, k) <==> HoldsRow(s.pass.workers[i], k.seqNo)
  {
  }

  lemma WorkKeeps(c: Config, s: State, i: nat, w: WorkStep)
    requires WorkEnabled(c, s, i, w) && Inv(c, s) && ValidConfig(c)
    ensures Inv(c, WorkApply(c, s, i, w))
  {
    var s' := WorkApply(c, s, i, w);
    OwnRowsOnly(c, s, i, w);
    MoveCounts(c, s, i, w);
    OthersKept(c, s, i, w);
    SelfKept(c, s, i, w);
    forall k | k in s'.q
      ensures s'.q[k].status.Delivered? ==> k in s'.h.acked
      ensures s'.q[k].status.Inflight? ==>
                Ready(s'.q[k], s'.now) && (Held(s', k) || k in s'.h.stranded || k in s'.h.leftover)
    {
      if k.sub == s.pass.ids[i] {
        RowsKept(c, s, i, w, k);
        assert Live(s', i);
      } else if s.q[k].status.Inflight? && Held(s, k) {
        var j :| Live(s, j) && s.pass.ids[j] == k.sub && HoldsRow(s.pass.workers[j], k.seqNo);
        assert Live(s', j) && j != i;
      }
    }
    WorkCursors(c, s, i, w);
  }

  lemma WorkCursors(c: Config, s: State, i: nat, w: WorkStep)
    requires WorkEnabled(c, s, i, w) && CursorsOk(s)
    ensures CursorsOk(WorkApply(c, s, i, w))
  {
    var pc := s.pass.workers[i];
    var id := s.pass.ids[i];
    TableEffects(c, s, i, w);
    hide Effect, NextPc;
    if w.Record? && w.written && pc.answer.Ack? && id in s.subs {
      AdvanceIsMax(s, id, pc.lease.seqs[|pc.lease.seqs| - 1]);
    }
  }

  // ---- Runs ---------------------------------------------------------------------------

  lemma StepKeeps(c: Config, s: State, a: Action)
    requires ValidConfig(c) && Inv(c, s) && Enabled(c, s, a)
    ensures Inv(c, Apply(c, s, a))
  {
    match a
    case Env(e) => EnvKeeps(c, s, e);
    case Proc(p) => ProcKeeps(c, s, p);
    case Work(i, w) => WorkKeeps(c, s, i, w);
  }

  lemma {:induction false} RunKeeps(c: Config, s: State, acts: seq<Action>)
    requires ValidConfig(c) && Inv(c, s) && Runs(c, s, acts)
    ensures Inv(c, EndState(c, s, acts))
    decreases |acts|
  {
    if acts != [] {
      StepKeeps(c, s, acts[0]);
      RunKeeps(c, Apply(c, s, acts[0]), acts[1..]);
    }
  }
}
