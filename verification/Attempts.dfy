/** How far a row's attempt can run. MaxAttempts does not bound it: the budget is compared
    with the batch head's attempt only. Counting heads gives the bound that does hold. */
module Attempts {
  import opened Common
  import opened Queue
  import opened Protocol
  import opened Safety
  import opened Budget

  /** Leases headed by a row of `sub` numbered at most n. */
  function UpTo(m: map<Key, nat>, sub: SubId, n: nat): nat {
    At(m, Key(sub, n)) + (if n == 0 then 0 else UpTo(m, sub, n - 1))
  }

  lemma {:induction false} UpToBump(m: map<Key, nat>, sub: SubId, n: nat, head: Key)
    ensures UpTo(Bump(m, {head}), sub, n) == UpTo(m, sub, n) + (if head.sub == sub && head.seqNo <= n then 1 else 0)
  {
    if n > 0 {
      UpToBump(m, sub, n - 1, head);
    }
  }

  // ---- Every attempt is some head's lease ---------------------------------------------

  ghost predicate Headed(s: State) {
    forall k :: k in s.q ==> s.q[k].attempt <= UpTo(s.h.heads, k.sub, k.seqNo)
  }

  /** What a worker's step does to one row's attempt and to the head counts. */
  lemma AttemptsMove(c: Config, s: State, i: nat, w: WorkStep, k: Key)
    requires WorkEnabled(c, s, i, w) && k in s.q
    ensures var t, id, leased := Effect(c, s, i, w), s.pass.ids[i], w.LeaseWrite? && !w.result.Failed?;
            && (!leased ==> t.h.heads == s.h.heads && t.q[k].attempt == s.q[k].attempt)
            && (leased ==>
                  var head := Key(id, s.pass.workers[i].lease.seqs[0]);
                  && t.h.heads == Bump(s.h.heads, {head})
                  && s.q[k].attempt <= t.q[k].attempt <= s.q[k].attempt + 1
                  && (t.q[k].attempt > s.q[k].attempt ==> InBatch(k, id, s.pass.workers[i].lease.seqs)))
  {
    RowEffect(c, s, i, w, k);
    CountEffects(c, s, i, w);
    hide Effect, Bump;
  }

  lemma WorkHeaded(c: Config, s: State, i: nat, w: WorkStep)
    requires WorkEnabled(c, s, i, w) && Headed(s)
    requires WorkerOk(c, s.q, s.now, s.h.acked, s.pass.ids[i], s.pass.workers[i])
    ensures Headed(WorkApply(c, s, i, w))
  {
    OwnRowsOnly(c, s, i, w);
    hide Effect, NextPc, Bump, DueBatch, Payload;
    var s' := WorkApply(c, s, i, w);
    forall k | k in s'.q ensures s'.q[k].attempt <= UpTo(s'.h.heads, k.sub, k.seqNo) {
      AttemptsMove(c, s, i, w, k);
      if w.LeaseWrite? && !w.result.Failed? {
        assert BatchOk(c, s.pass.workers[i].lease);
        UpToBump(s.h.heads, k.sub, k.seqNo, Key(s.pass.ids[i], s.pass.workers[i].lease.seqs[0]));
      }
    }
  }

  lemma HeadedStep(c: Config, s: State, a: Action)
    requires ValidConfig(c) && Inv(c, s) && Enabled(c, s, a) && Headed(s)
    ensures Headed(Apply(c, s, a))
  {
    match a
    case Env(e) => EnvRenews(s, e);
    case Proc(p) =>
    case Work(i, w) =>
      hide WorkApply;
      WorkHeaded(c, s, i, w);
  }

  // ---- A row heads at most MaxAttempts leases per life --------------------------------

  /** While a batch may still be retried, each of its rows has a turn left as head. */
  ghost predicate TurnLeft(c: Config, h: History, id: SubId, pc: Pc) {
    match pc
    case Selected(b) =>
      && b.seqs != []
      && (forall n :: n in b.seqs ==> At(h.lives, Key(id, n)) > 0 && At(h.turns, Key(id, n)) < c.maxAttempts)
      && At(h.turns, Key(id, b.seqs[0])) <= b.headAttempt
    case Leased(b) => KeepsTurn(c, h, id, b)
    case Fetched(b, _) => KeepsTurn(c, h, id, b)
    case Posted(b, _) => KeepsTurn(c, h, id, b)
    case _ => true
  }

  ghost predicate KeepsTurn(c: Config, h: History, id: SubId, b: Lease) {
    !Exhausted(b.headAttempt, c.maxAttempts) ==> forall n :: n in b.seqs ==> At(h.turns, Key(id, n)) < c.maxAttempts
  }

  ghost predicate RowTurns(c: Config, q: Deliveries, h: History, k: Key) {
    && At(h.turns, k) <= c.maxAttempts
    && (At(h.lives, k) == 0 ==> At(h.heads, k) == 0 && At(h.turns, k) == 0)
    && (At(h.lives, k) > 0 ==> At(h.heads, k) <= Times(c.maxAttempts, At(h.lives, k) - 1) + At(h.turns, k))
    && (k in q ==>
          && At(h.lives, k) > 0 && At(h.turns, k) <= q[k].attempt
          && (q[k].status.Pending? ==> At(h.turns, k) < c.maxAttempts))
  }

  ghost predicate TurnsOk(c: Config, s: State) {
    && (forall k :: RowTurns(c, s.q, s.h, k))
    && forall i :: Live(s, i) ==> TurnLeft(c, s.h, s.pass.ids[i], s.pass.workers[i])
  }

  /** Renewing rows or advancing other subscriptions never takes a turn from these rows. */
  ghost predicate Gentle(h: History, h': History, id: SubId) {
    forall k: Key :: k.sub == id ==> At(h'.turns, k) <= At(h.turns, k) && At(h.lives, k) <= At(h'.lives, k)
  }

  lemma TurnStable(c: Config, h: History, h': History, id: SubId, pc: Pc)
    requires TurnLeft(c, h, id, pc) && Gentle(h, h', id)
    ensures TurnLeft(c, h', id, pc)
  {
  }

  lemma TimesStep(m: nat, n: nat)
    requires n > 0
    ensures Times(m, n) == m + Times(m, n - 1)
  {
  }

  /** Renewed rows are back to pending with no attempt and no turn spent. */
  lemma RenewTurns(c: Config, q: Deliveries, h: History, q': Deliveries, h': History, ks: set<Key>, k: Key)
    requires ValidConfig(c) && RowTurns(c, q, h, k)
    requires At(h'.lives, k) == At(h.lives, k) + (if k in ks then 1 else 0)
    requires At(h'.turns, k) == if k in ks then 0 else At(h.turns, k)
    requires h'.heads == h.heads
    requires k in q' ==> k in ks || (k in q && q'[k] == q[k])
    ensures RowTurns(c, q', h', k)
  {
  }

  lemma EnvTurns(c: Config, s: State, e: EnvStep)
    requires ValidConfig(c) && EnvEnabled(s, e) && TurnsOk(c, s)
    ensures TurnsOk(c, EnvApply(s, e))
  {
    EnvRenews(s, e);
    hide EnvApply, EnvEnabled, Renewed;
    var s' := EnvApply(s, e);
    forall k ensures RowTurns(c, s'.q, s'.h, k) {
      assert RowTurns(c, s.q, s.h, k);
      RenewTurns(c, s.q, s.h, s'.q, s'.h, Renewed(s, Env(e)), k);
    }
    forall i | Live(s', i) ensures TurnLeft(c, s'.h, s'.pass.ids[i], s'.pass.workers[i]) {
      assert Live(s, i);
      TurnStable(c, s.h, s'.h, s.pass.ids[i], s.pass.workers[i]);
    }
  }

  lemma ProcRenews(c: Config, s: State, p: ProcStep)
    requires ProcEnabled(c, s, p)
    ensures var s', ks := ProcApply(c, s, p), Renewed(s, Proc(p));
            && s'.h.heads == s.h.heads
            && (forall k :: k in s'.q ==> k in ks || (k in s.q && s'.q[k] == s.q[k]))
            && (forall k :: At(s'.h.lives, k) == At(s.h.lives, k) + (if k in ks then 1 else 0))
            && (forall k :: At(s'.h.turns, k) == if k in ks then 0 else At(s.h.turns, k))
  {
    hide DuePage, At, Bump, Clear;
  }

  lemma ProcTurns(c: Config, s: State, p: ProcStep)
    requires ValidConfig(c) && Inv(c, s) && ProcEnabled(c, s, p) && TurnsOk(c, s)
    ensures TurnsOk(c, ProcApply(c, s, p))
  {
    var s' := ProcApply(c, s, p);
    ProcRenews(c, s, p);
    forall i | Live(s', i) ensures TurnLeft(c, s'.h, s'.pass.ids[i], s'.pass.workers[i]) {
      assert Live(s, i) || s'.pass.workers[i].Start?;
    }
    hide ProcApply, ProcEnabled, Renewed, Inv;
    forall k ensures RowTurns(c, s'.q, s'.h, k) {
      assert RowTurns(c, s.q, s.h, k);
      RenewTurns(c, s.q, s.h, s'.q, s'.h, Renewed(s, Proc(p)), k);
    }
  }

  /** What a worker's step does to the counters of one of its rows. */
  lemma CountersMove(c: Config, s: State, i: nat, w: WorkStep, k: Key)
    requires WorkEnabled(c, s, i, w)
    ensures var t, leased := Effect(c, s, i, w), w.LeaseWrite? && !w.result.Failed?;
            && t.h.lives == s.h.lives
            && (!leased || k != Key(s.pass.ids[i], s.pass.workers[i].lease.seqs[0]) ==>
                  At(t.h.heads, k) == At(s.h.heads, k) && At(t.h.turns, k) == At(s.h.turns, k))
            && (leased && k == Key(s.pass.ids[i], s.pass.workers[i].lease.seqs[0]) ==>
                  At(t.h.heads, k) == At(s.h.heads, k) + 1 && At(t.h.turns, k) == At(s.h.turns, k) + 1)
  {
    CountEffects(c, s, i, w);
    hide Effect;
  }

  /** What it does to the row: a lease bumps it, and only a retry makes it pending again. */
  lemma RowMoves(c: Config, s: State, i: nat, w: WorkStep, k: Key)
    requires WorkEnabled(c, s, i, w) && k in s.q && k.sub == s.pass.ids[i]
    requires WorkerOk(c, s.q, s.now, s.h.acked, k.sub, s.pass.workers[i])
    ensures var t, pc, leased := Effect(c, s, i, w), s.pass.workers[i], w.LeaseWrite? && !w.result.Failed?;
            && k in t.q && s.q[k].attempt <= t.q[k].attempt
            && (leased && k.seqNo in pc.lease.seqs ==>
                  t.q[k].attempt == s.q[k].attempt + 1 && t.q[k].status.Inflight?)
            && (t.q[k].status.Pending? && !s.q[k].status.Pending? ==>
                  pc.Posted? && k.seqNo in pc.lease.seqs && !Exhausted(pc.lease.headAttempt, c.maxAttempts))
  {
    RowEffect(c, s, i, w, k);
    hide Effect;
  }

  lemma OwnTurns(c: Config, s: State, i: nat, w: WorkStep, k: Key)
    requires ValidConfig(c) && WorkEnabled(c, s, i, w) && k.sub == s.pass.ids[i]
    requires WorkerOk(c, s.q, s.now, s.h.acked, k.sub, s.pass.workers[i])
    requires TurnLeft(c, s.h, k.sub, s.pass.workers[i]) && RowTurns(c, s.q, s.h, k)
    ensures RowTurns(c, Effect(c, s, i, w).q, Effect(c, s, i, w).h, k)
  {
    CountersMove(c, s, i, w, k);
    OwnRowsOnly(c, s, i, w);
    if k in s.q {
      RowMoves(c, s, i, w, k);
    }
    hide Effect;
  }

  lemma SelectTurnLeft(c: Config, s: State, i: nat)
    requires ValidConfig(c) && WorkEnabled(c, s, i, Select) && forall k :: RowTurns(c, s.q, s.h, k)
    ensures TurnLeft(c, s.h, s.pass.ids[i], NextPc(c, s, i, Select))
  {
    var id := s.pass.ids[i];
    var seqs := DueBatch(s.q, id, s.now, c.batchSize);
    hide DueBatch;
    forall n | n in seqs ensures At(s.h.lives, Key(id, n)) > 0 && At(s.h.turns, Key(id, n)) < c.maxAttempts {
      assert RowTurns(c, s.q, s.h, Key(id, n));
    }
    assert seqs != [] ==> RowTurns(c, s.q, s.h, Key(id, seqs[0]));
  }

  lemma OwnTurnLeft(c: Config, s: State, i: nat, w: WorkStep)
    requires ValidConfig(c) && WorkEnabled(c, s, i, w)
    requires TurnLeft(c, s.h, s.pass.ids[i], s.pass.workers[i])
    requires forall k :: RowTurns(c, s.q, s.h, k)
    ensures TurnLeft(c, Effect(c, s, i, w).h, s.pass.ids[i], NextPc(c, s, i, w))
  {
    CountEffects(c, s, i, w);
    if w.Select? {
      SelectTurnLeft(c, s, i);
      hide NextPc, RowTurns;
    } else {
      hide Effect, RowTurns, Bump, DueBatch, Payload;
    }
  }

  lemma WorkTurns(c: Config, s: State, i: nat, w: WorkStep)
    requires ValidConfig(c) && WorkEnabled(c, s, i, w) && TurnsOk(c, s) && Inv(c, s)
    ensures TurnsOk(c, WorkApply(c, s, i, w))
  {
    var s' := WorkApply(c, s, i, w);
    assert WorkerOk(c, s.q, s.now, s.h.acked, s.pass.ids[i], s.pass.workers[i]);
    OwnRowsOnly(c, s, i, w);
    OwnTurnLeft(c, s, i, w);
    hide Effect, NextPc, Inv, WorkerOk;
    forall k ensures RowTurns(c, s'.q, s'.h, k) {
      assert RowTurns(c, s.q, s.h, k);
      CountersMove(c, s, i, w, k);
      if k.sub == s.pass.ids[i] {
        OwnTurns(c, s, i, w, k);
      }
    }
    forall j | Live(s', j) ensures TurnLeft(c, s'.h, s'.pass.ids[j], s'.pass.workers[j]) {
      if j != i {
        assert Live(s, j) && s.pass.ids[j] != s.pass.ids[i];
        forall k: Key | k.sub == s.pass.ids[j]
          ensures At(s'.h.turns, k) <= At(s.h.turns, k) && At(s.h.lives, k) <= At(s'.h.lives, k)
        {
          CountersMove(c, s, i, w, k);
        }
        TurnStable(c, s.h, s'.h, s.pass.ids[j], s.pass.workers[j]);
      }
    }
  }

  lemma TurnsStep(c: Config, s: State, a: Action)
    requires ValidConfig(c) && Inv(c, s) && Enabled(c, s, a) && TurnsOk(c, s)
    ensures TurnsOk(c, Apply(c, s, a))
  {
    match a
    case Env(e) => EnvTurns(c, s, e);
    case Proc(p) => ProcTurns(c, s, p);
    case Work(i, w) => WorkTurns(c, s, i, w);
  }

  // ---- Runs ---------------------------------------------------------------------------

  lemma {:induction false} RunCounts(c: Config, s: State, acts: seq<Action>)
    requires ValidConfig(c) && Inv(c, s) && Headed(s) && TurnsOk(c, s) && Runs(c, s, acts)
    ensures Headed(EndState(c, s, acts)) && TurnsOk(c, EndState(c, s, acts))
    decreases |acts|
  {
    hide Headed, TurnsOk, Inv, Apply, Enabled;
    if acts != [] {
      StepKeeps(c, s, acts[0]);
      HeadedStep(c, s, acts[0]);
      TurnsStep(c, s, acts[0]);
      RunCounts(c, Apply(c, s, acts[0]), acts[1..]);
    }
  }

  lemma {:induction false} HeadsPerLife(m: nat, heads: map<Key, nat>, lives: map<Key, nat>, sub: SubId, n: nat)
    requires forall k :: At(heads, k) <= Times(m, At(lives, k))
    ensures UpTo(heads, sub, n) <= Times(m, UpTo(lives, sub, n))
  {
    if n > 0 {
      HeadsPerLife(m, heads, lives, sub, n - 1);
      TimesAdd(m, At(lives, Key(sub, n)), UpTo(lives, sub, n - 1));
    }
  }

  /** How often k was inserted, requeued or recovered in the run. */
  function TimesRenewed(c: Config, s: State, acts: seq<Action>, k: Key): nat
    requires Runs(c, s, acts)
    decreases |acts|
  {
    if acts == [] then 0
    else (if k in Renewed(s, acts[0]) then 1 else 0) + TimesRenewed(c, Apply(c, s, acts[0]), acts[1..], k)
  }

  lemma LifeCounted(c: Config, s: State, a: Action, k: Key)
    requires Enabled(c, s, a)
    ensures At(Apply(c, s, a).h.lives, k) == At(s.h.lives, k) + (if k in Renewed(s, a) then 1 else 0)
  {
    match a
    case Env(e) =>
      EnvRenews(s, e);
      hide EnvApply, Renewed;
    case Proc(p) =>
      ProcRenews(c, s, p);
      hide ProcApply, Renewed;
    case Work(i, w) =>
      CountEffects(c, s, i, w);
      hide Effect, NextPc;
  }

  lemma {:induction false} LivesAreRenewals(c: Config, s: State, acts: seq<Action>, k: Key)
    requires Runs(c, s, acts)
    ensures At(EndState(c, s, acts).h.lives, k) == At(s.h.lives, k) + TimesRenewed(c, s, acts, k)
    decreases |acts|
  {
    hide Apply, Enabled, Renewed;
    if acts != [] {
      LifeCounted(c, s, acts[0], k);
      LivesAreRenewals(c, Apply(c, s, acts[0]), acts[1..], k);
    }
  }

  /** Renewals of the rows of `sub` numbered at most n. */
  function RenewedUpTo(c: Config, s: State, acts: seq<Action>, sub: SubId, n: nat): nat
    requires Runs(c, s, acts)
  {
    TimesRenewed(c, s, acts, Key(sub, n)) + (if n == 0 then 0 else RenewedUpTo(c, s, acts, sub, n - 1))
  }

  lemma {:induction false} UpToIsRenewals(c: Config, s: State, acts: seq<Action>, sub: SubId, n: nat)
    requires Runs(c, s, acts) && Initial(s)
    ensures UpTo(EndState(c, s, acts).h.lives, sub, n) == RenewedUpTo(c, s, acts, sub, n)
    decreases n
  {
    hide Runs, EndState, TimesRenewed;
    LivesAreRenewals(c, s, acts, Key(sub, n));
    if n > 0 {
      UpToIsRenewals(c, s, acts, sub, n - 1);
    }
  }

  /** A row heads at most MaxAttempts leases for each time it was inserted, requeued or
      recovered; so no attempt exceeds MaxAttempts times the number of such renewals among
      the rows of its subscription numbered at most its own. */
  lemma AttemptBound(c: Config, s: State, acts: seq<Action>, k: Key)
    requires ValidConfig(c) && Initial(s) && Runs(c, s, acts) && k in EndState(c, s, acts).q
    ensures var e := EndState(c, s, acts);
            && At(e.h.heads, k) <= c.maxAttempts * TimesRenewed(c, s, acts, k)
            && e.q[k].attempt <= c.maxAttempts * RenewedUpTo(c, s, acts, k.sub, k.seqNo)
  {
    InitialCounts(c, s);
    RunCounts(c, s, acts);
    LivesAreRenewals(c, s, acts, k);
    UpToIsRenewals(c, s, acts, k.sub, k.seqNo);
    EndCounts(c, EndState(c, s, acts), k);
  }

  lemma InitialCounts(c: Config, s: State)
    requires ValidConfig(c) && Initial(s)
    ensures Inv(c, s) && Headed(s) && TurnsOk(c, s)
  {
  }

  lemma EndCounts(c: Config, e: State, k: Key)
    requires Headed(e) && TurnsOk(c, e) && k in e.q
    ensures At(e.h.heads, k) <= c.maxAttempts * At(e.h.lives, k)
    ensures e.q[k].attempt <= c.maxAttempts * UpTo(e.h.lives, k.sub, k.seqNo)
  {
    forall k: Key ensures At(e.h.heads, k) <= Times(c.maxAttempts, At(e.h.lives, k)) {
      assert RowTurns(c, e.q, e.h, k);
      if At(e.h.lives, k) > 0 {
        TimesStep(c.maxAttempts, At(e.h.lives, k));
      }
    }
    HeadsPerLife(c.maxAttempts, e.h.heads, e.h.lives, k.sub, k.seqNo);
    TimesIsProduct(c.maxAttempts, At(e.h.lives, k));
    TimesIsProduct(c.maxAttempts, UpTo(e.h.lives, k.sub, k.seqNo));
  }
}
