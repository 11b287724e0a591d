/** A row that is only ever leased alone gets exactly MaxAttempts tries. */
module Alone {
  import opened Common
  import opened Queue
  import opened Protocol
  import opened Safety
  import opened Budget
  import opened Attempts

  /** The action commits a lease of a batch that lists k. */
  predicate Leases(s: State, a: Action, k: Key) {
    && a.Work? && a.w.LeaseWrite? && !a.w.result.Failed?
    && Live(s, a.i) && s.pass.workers[a.i].Selected?
    && s.pass.ids[a.i] == k.sub && k.seqNo in s.pass.workers[a.i].lease.seqs
  }

  /** How often the run leased k. */
  function LeasesOf(c: Config, s: State, acts: seq<Action>, k: Key): nat
    requires Runs(c, s, acts)
    decreases |acts|
  {
    if acts == [] then 0
    else (if Leases(s, acts[0], k) then 1 else 0) + LeasesOf(c, Apply(c, s, acts[0]), acts[1..], k)
  }

  predicate LeasesOnly(s: State, a: Action, k: Key) {
    Leases(s, a, k) ==> s.pass.workers[a.i].lease.seqs == [k.seqNo]
  }

  /** Every lease of k in the run is of k alone. */
  predicate AlwaysAlone(c: Config, s: State, acts: seq<Action>, k: Key)
    requires Runs(c, s, acts)
    decreases |acts|
  {
    acts != [] ==> LeasesOnly(s, acts[0], k) && AlwaysAlone(c, Apply(c, s, acts[0]), acts[1..], k)
  }

  // ---- the invariant ------------------------------------------------------------------

  predicate Lists(pc: Pc, n: nat) {
    (pc.Selected? || pc.Leased? || pc.Fetched? || pc.Posted?) && n in pc.lease.seqs
  }

  /** What a worker that lists row n, leased `count` times so far, remembers of it. */
  predicate Remembers(pc: Pc, n: nat, count: nat) {
    Lists(pc, n) ==>
      if pc.Selected? then pc.lease.seqs == [n] ==> pc.lease.headAttempt == count
      else pc.lease.seqs == [n] && pc.lease.headAttempt + 1 == count
  }

  predicate RowAlone(c: Config, r: Row, count: nat) {
    r.attempt == count <= c.maxAttempts && (r.status.Pending? ==> count < c.maxAttempts)
  }

  ghost predicate AloneOk(c: Config, s: State, k: Key, count: nat) {
    && (k in s.q ==> RowAlone(c, s.q[k], count))
    && (forall i :: Live(s, i) && s.pass.ids[i] == k.sub && k in s.q ==>
          Remembers(s.pass.workers[i], k.seqNo, count))
    && (At(s.h.lives, k) == 0 ==>
          && k !in s.q && count == 0
          && forall i :: Live(s, i) && s.pass.ids[i] == k.sub ==> !Lists(s.pass.workers[i], k.seqNo))
  }

  lemma EnvAlone(c: Config, s: State, e: EnvStep, k: Key, count: nat)
    requires ValidConfig(c) && EnvEnabled(s, e) && AloneOk(c, s, k, count)
    requires k in Renewed(s, Env(e)) ==> At(s.h.lives, k) == 0
    ensures AloneOk(c, EnvApply(s, e), k, count)
  {
  }

  lemma ProcAlone(c: Config, s: State, p: ProcStep, k: Key, count: nat)
    requires ProcEnabled(c, s, p) && AloneOk(c, s, k, count)
    requires k in Renewed(s, Proc(p)) ==> At(s.h.lives, k) == 0
    ensures AloneOk(c, ProcApply(c, s, p), k, count)
  {
    ProcRenews(c, s, p);
    var s' := ProcApply(c, s, p);
    forall i | Live(s', i) && !s'.pass.workers[i].Start? ensures Live(s, i) {}
    hide DuePage, At, Bump, Clear;
  }

  /** What a step of k's worker makes of k and of what the worker remembers. */
  lemma OwnAlone(c: Config, s: State, i: nat, w: WorkStep, k: Key, count: nat)
    requires ValidConfig(c) && WorkEnabled(c, s, i, w) && k.sub == s.pass.ids[i] && k in s.q
    requires WorkerOk(c, s.q, s.now, s.h.acked, k.sub, s.pass.workers[i])
    requires RowAlone(c, s.q[k], count) && Remembers(s.pass.workers[i], k.seqNo, count)
    requires LeasesOnly(s, Work(i, w), k)
    ensures var count' := count + (if Leases(s, Work(i, w), k) then 1 else 0);
            && RowAlone(c, RowAfter(c, s.q[k], s.pass.workers[i], w, k.seqNo), count')
            && Remembers(NextPc(c, s, i, w), k.seqNo, count')
  {
    hide Payload, DueBatch;
  }

  lemma NewList(c: Config, s: State, i: nat, w: WorkStep, n: nat)
    requires WorkEnabled(c, s, i, w) && Lists(NextPc(c, s, i, w), n)
    ensures Lists(s.pass.workers[i], n) || Key(s.pass.ids[i], n) in s.q
  {
    hide Payload, DueBatch;
  }

  lemma WorkAlone(c: Config, s: State, i: nat, w: WorkStep, k: Key, count: nat)
    requires ValidConfig(c) && Inv(c, s) && WorkEnabled(c, s, i, w) && AloneOk(c, s, k, count)
    requires LeasesOnly(s, Work(i, w), k)
    ensures AloneOk(c, WorkApply(c, s, i, w), k, count + (if Leases(s, Work(i, w), k) then 1 else 0))
  {
    var s' := WorkApply(c, s, i, w);
    assert WorkerOk(c, s.q, s.now, s.h.acked, s.pass.ids[i], s.pass.workers[i]);
    OwnRowsOnly(c, s, i, w);
    CountEffects(c, s, i, w);
    hide Effect, NextPc, WorkerOk, Bump, At;
    if k in s.q {
      RowEffect(c, s, i, w, k);
      if k.sub == s.pass.ids[i] {
        OwnAlone(c, s, i, w, k, count);
      }
    }
    hide RowAlone, Remembers;
    forall j | Live(s', j) && s'.pass.ids[j] == k.sub
      ensures Live(s, j) && (j != i ==> s'.pass.workers[j] == s.pass.workers[j] && s.pass.ids[i] != k.sub)
    {}
    if k.sub == s.pass.ids[i] && Lists(NextPc(c, s, i, w), k.seqNo) {
      NewList(c, s, i, w, k.seqNo);
    }
  }

  lemma AloneStep(c: Config, s: State, a: Action, k: Key, count: nat)
    requires ValidConfig(c) && Inv(c, s) && Enabled(c, s, a) && AloneOk(c, s, k, count)
    requires LeasesOnly(s, a, k) && (k in Renewed(s, a) ==> At(s.h.lives, k) == 0)
    ensures AloneOk(c, Apply(c, s, a), k, count + (if Leases(s, a, k) then 1 else 0))
  {
    match a
    case Env(e) => EnvAlone(c, s, e, k, count);
    case Proc(p) => ProcAlone(c, s, p, k, count);
    case Work(i, w) => WorkAlone(c, s, i, w, k, count);
  }

  lemma {:induction false} AloneRun(c: Config, s: State, acts: seq<Action>, k: Key, count: nat)
    requires ValidConfig(c) && Inv(c, s) && Runs(c, s, acts) && AloneOk(c, s, k, count)
    requires AlwaysAlone(c, s, acts, k) && At(s.h.lives, k) + TimesRenewed(c, s, acts, k) <= 1
    ensures AloneOk(c, EndState(c, s, acts), k, count + LeasesOf(c, s, acts, k))
    decreases |acts|
  {
    hide Apply, Enabled, Inv, AloneOk, LeasesOnly, Leases, Renewed, At;
    if acts != [] {
      var a := acts[0];
      LifeCounted(c, s, a, k);
      StepKeeps(c, s, a);
      AloneStep(c, s, a, k, count);
      AloneRun(c, Apply(c, s, a), acts[1..], k, count + (if Leases(s, a, k) then 1 else 0));
    }
  }

  /** In a run that inserts k once, never requeues or recovers it, and leases it only alone,
      its attempt is the number of its leases, at most MaxAttempts; and when a retryable
      failure of it is recorded, it dies if and only if that was attempt MaxAttempts, and is
      pending again otherwise. */
  lemma AloneDiesOnTime(c: Config, s: State, acts: seq<Action>, k: Key)
    requires ValidConfig(c) && Initial(s) && Runs(c, s, acts) && k in EndState(c, s, acts).q
    requires AlwaysAlone(c, s, acts, k) && TimesRenewed(c, s, acts, k) <= 1
    ensures var e := EndState(c, s, acts);
            && e.q[k].attempt == LeasesOf(c, s, acts, k) <= c.maxAttempts
            && (e.q[k].status.Pending? ==> e.q[k].attempt < c.maxAttempts)
            && forall i, at :: RecordsFailure(c, e, i, at, k) ==>
                 Apply(c, e, Work(i, Record(true, at))).q[k].status ==
                   if LeasesOf(c, s, acts, k) == c.maxAttempts then Dead else Pending
  {
    AloneRun(c, s, acts, k, 0);
    RunKeeps(c, s, acts);
    var e, count := EndState(c, s, acts), LeasesOf(c, s, acts, k);
    hide Runs, EndState, LeasesOf, AlwaysAlone, TimesRenewed, Inv;
    forall i, at | RecordsFailure(c, e, i, at, k)
      ensures Apply(c, e, Work(i, Record(true, at))).q[k].status == if count == c.maxAttempts then Dead else Pending
    {
      RowEffect(c, e, i, Record(true, at), k);
      hide Effect;
    }
  }

  /** Worker i holds a retryable failure of k and can write it. */
  predicate RecordsFailure(c: Config, e: State, i: nat, at: Time, k: Key) {
    && WorkEnabled(c, e, i, Record(true, at)) && k in e.q
    && e.pass.ids[i] == k.sub && k.seqNo in e.pass.workers[i].lease.seqs
    && e.pass.workers[i].answer.Retryable?
  }
}
