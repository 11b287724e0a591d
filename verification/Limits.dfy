/** Exactly when attempts stay within MaxAttempts. */
module Limits {
  import opened Common
  import opened Queue
  import opened Protocol
  import opened Safety
  import opened Budget

  // ---- attempt <= MaxAttempts ---------------------------------------------------------

  ghost predicate Within(c: Config, q: Deliveries) {
    forall k :: k in q ==> q[k].attempt <= c.maxAttempts
  }

  /** The action commits a lease of a batch with a pending row that has no attempt left. */
  predicate Overdraws(c: Config, s: State, a: Action) {
    && a.Work? && a.w.LeaseWrite? && !a.w.result.Failed?
    && Live(s, a.i) && s.pass.workers[a.i].Selected?
    && exists n :: n in s.pass.workers[a.i].lease.seqs && Spent(c, s.q, Key(s.pass.ids[a.i], n))
  }

  predicate Spent(c: Config, q: Deliveries, k: Key) {
    k in q && q[k].status.Pending? && q[k].attempt == c.maxAttempts
  }

  lemma ProcWithin(c: Config, s: State, p: ProcStep)
    requires ProcEnabled(c, s, p) && Within(c, s.q)
    ensures Within(c, ProcApply(c, s, p).q)
  {
    hide Bump, Clear, DuePage;
  }

  lemma WorkWithin(c: Config, s: State, i: nat, w: WorkStep)
    requires WorkEnabled(c, s, i, w) && Within(c, s.q)
    ensures Within(c, WorkApply(c, s, i, w).q) <==> !Overdraws(c, s, Work(i, w))
  {
    var id, pc := s.pass.ids[i], s.pass.workers[i];
    var q' := WorkApply(c, s, i, w).q;
    OwnRowsOnly(c, s, i, w);
    forall k | k in s.q
      ensures k in q' && q'[k] == if k.sub == id then RowAfter(c, s.q[k], pc, w, k.seqNo) else s.q[k]
    {
      RowEffect(c, s, i, w, k);
    }
    hide Effect, NextPc;
    if Overdraws(c, s, Work(i, w)) {
      var n :| n in pc.lease.seqs && Spent(c, s.q, Key(id, n));
      assert q'[Key(id, n)].attempt > c.maxAttempts;
    }
  }

  /** With every attempt within the limit, a step keeps them so exactly if it does not lease
      a pending row that has used its attempts up, whether another row heads the batch or
      the row itself was recovered after a crash. */
  lemma WithinStep(c: Config, s: State, a: Action)
    requires Enabled(c, s, a) && Within(c, s.q)
    ensures Within(c, Apply(c, s, a).q) <==> !Overdraws(c, s, a)
  {
    match a
    case Env(e) =>
      EnvRenews(s, e);
      hide EnvApply, Renewed;
    case Proc(p) => ProcWithin(c, s, p);
    case Work(i, w) => WorkWithin(c, s, i, w);
  }

  ghost predicate AlwaysWithin(c: Config, s: State, acts: seq<Action>)
    requires Runs(c, s, acts)
    decreases |acts|
  {
    Within(c, s.q) && (acts != [] ==> AlwaysWithin(c, Apply(c, s, acts[0]), acts[1..]))
  }

  ghost predicate NeverOverdraws(c: Config, s: State, acts: seq<Action>)
    requires Runs(c, s, acts)
    decreases |acts|
  {
    acts != [] ==> !Overdraws(c, s, acts[0]) && NeverOverdraws(c, Apply(c, s, acts[0]), acts[1..])
  }

  /** Over every run: no attempt ever exceeds MaxAttempts if and only if no lease of the run
      takes a pending row that has used its attempts up. */
  lemma {:induction false} AttemptsStayWithin(c: Config, s: State, acts: seq<Action>)
    requires Runs(c, s, acts) && Within(c, s.q)
    ensures AlwaysWithin(c, s, acts) <==> NeverOverdraws(c, s, acts)
    decreases |acts|
  {
    hide Apply, Enabled, Within, Overdraws;
    if acts != [] {
      WithinStep(c, s, acts[0]);
      if !Overdraws(c, s, acts[0]) {
        AttemptsStayWithin(c, Apply(c, s, acts[0]), acts[1..]);
      }
    }
  }
}
