/** Why retrying stops. Only the batch head's attempt is compared with MaxAttempts while
    every row of the batch is bumped, so no single row's counter bounds the work; the
    pending rows together do. */
module Budget {
  import opened Common
  import opened Queue
  import opened Protocol
  import opened Safety

  /** Batches a pending row with this attempt can still head, plus one. */
  function Worth(c: Config, attempt: nat): nat {
    1 + (if attempt < c.maxAttempts then c.maxAttempts - attempt else 0)
  }

  /** The worker has selected a batch headed by row n and not yet written the lease. */
  predicate Heads(pc: Pc, n: nat) {
    pc.Selected? && pc.lease.seqs != [] && pc.lease.seqs[0] == n
  }

  /** The worker holds row n in a batch that may still be put back to pending. */
  ghost predicate Returns(c: Config, pc: Pc, n: nat) {
    HoldsRow(pc, n) && !Exhausted(pc.lease.headAttempt, c.maxAttempts)
  }

  ghost predicate HeadsAt(s: State, i: int, k: Key) {
    Live(s, i) && s.pass.ids[i] == k.sub && Heads(s.pass.workers[i], k.seqNo)
  }

  ghost predicate MayReturn(c: Config, s: State, i: int, k: Key) {
    Live(s, i) && s.pass.ids[i] == k.sub && Returns(c, s.pass.workers[i], k.seqNo)
  }

  function RowWeight(c: Config, r: Row, heads: bool, back: bool): nat {
    if r.status.Pending? then Worth(c, r.attempt) - (if heads then 1 else 0)
    else if r.status.Inflight? && back then Worth(c, r.attempt)
    else 0
  }

  ghost function Weight(c: Config, s: State, k: Key): nat {
    if k !in s.q then 0
    else RowWeight(c, s.q[k], exists i :: HeadsAt(s, i, k), exists i :: MayReturn(c, s, i, k))
  }

  /** Each key with its weight spelled out as that many tokens. */
  ghost function Tokens(c: Config, s: State): set<(Key, nat)> {
    set k, n | k in s.q.Keys && 0 <= n < Weight(c, s, k) :: (k, n)
  }

  /** Workers between the SELECT and the lease UPDATE. */
  function Claims(ws: seq<Pc>): nat {
    if ws == [] then 0 else Claims(ws[..|ws| - 1]) + (if ws[|ws| - 1].Selected? then 1 else 0)
  }

  function PassClaims(p: Pass): nat {
    if p.Draining? then Claims(p.workers) else 0
  }

  /** What is left to spend: tokens, and batches selected but not yet leased. */
  ghost function Left(c: Config, s: State): nat {
    |Tokens(c, s)| + PassClaims(s.pass)
  }

  /** Rows an action makes pending anew. */
  function Renewed(s: State, a: Action): set<Key> {
    match a
    case Env(Enqueue(sub, seqs)) => NewKeys(s.q, sub, seqs)
    case Env(Requeue(_, _, _, chosen)) => chosen
    case Proc(Boot(true)) => InflightKeys(s.q)
    case _ => {}
  }

  function CreditTokens(c: Config, ks: set<Key>): (r: set<(Key, nat)>)
    ensures forall k: Key, n: nat :: (k, n) in r <==> k in ks && n < c.maxAttempts + 1
  {
    set k, n | k in ks && 0 <= n < c.maxAttempts + 1 :: (k, n)
  }

  /** Multiplication as repeated addition, to keep products out of the run induction. */
  function Times(m: nat, n: nat): nat {
    if n == 0 then 0 else m + Times(m, n - 1)
  }

  lemma {:induction false} TimesIsProduct(m: nat, n: nat)
    ensures Times(m, n) == m * n
  {
    if n > 0 {
      TimesIsProduct(m, n - 1);
    }
  }

  lemma {:induction false} TimesAdd(m: nat, x: nat, y: nat)
    ensures Times(m, x + y) == Times(m, x) + Times(m, y)
  {
    if x > 0 {
      TimesAdd(m, x - 1, y);
    }
  }

  lemma {:induction false} CreditCount(c: Config, ks: set<Key>)
    ensures |CreditTokens(c, ks)| == Times(c.maxAttempts + 1, |ks|)
  {
    var m := c.maxAttempts + 1;
    if ks == {} {
      assert CreditTokens(c, ks) == {};
    } else {
      var k :| k in ks;
      var rest := CreditTokens(c, ks - {k});
      CreditCount(c, ks - {k});
      ColumnCount(k, m);
      assert rest !! Column(k, m);
      assert CreditTokens(c, ks) == rest + Column(k, m);
      assert |ks| == |ks - {k}| + 1;
    }
  }

  function Column(k: Key, m: nat): set<(Key, nat)> {
    set n | 0 <= n < m :: (k, n)
  }

  lemma ColumnCount(k: Key, m: nat)
    ensures |Column(k, m)| == m
  {
    if m > 0 {
      ColumnCount(k, m - 1);
      assert Column(k, m) == Column(k, m - 1) + {(k, m - 1)};
    }
  }

  lemma TokenIn(c: Config, s: State, k: Key, n: nat)
    ensures (k, n) in Tokens(c, s) <==> n < Weight(c, s, k)
  {
  }

  /** If no weight grows except on the renewed rows, the tokens fit in the old ones plus
      the credit for those rows. */
  lemma Spend(c: Config, s: State, s': State, ks: set<Key>)
    requires forall k :: k !in ks ==> Weight(c, s', k) <= Weight(c, s, k)
    requires forall k :: k in ks ==> Weight(c, s', k) <= c.maxAttempts + 1
    ensures |Tokens(c, s')| <= |Tokens(c, s)| + |CreditTokens(c, ks)|
  {
    var all := Tokens(c, s) + CreditTokens(c, ks);
    forall t | t in Tokens(c, s') ensures t in all {
      TokenIn(c, s', t.0, t.1);
      TokenIn(c, s, t.0, t.1);
    }
    SubsetCard(Tokens(c, s'), all);
    UnionCard(Tokens(c, s), CreditTokens(c, ks));
  }

  /** ... and if the weight of one row drops, a token is spent. */
  lemma SpendOne(c: Config, s: State, s': State, head: Key)
    requires forall k :: Weight(c, s', k) <= Weight(c, s, k)
    requires Weight(c, s', head) < Weight(c, s, head)
    ensures |Tokens(c, s')| + 1 <= |Tokens(c, s)|
  {
    var t0 := (head, Weight(c, s, head) - 1);
    TokenIn(c, s, head, t0.1);
    forall t | t in Tokens(c, s') ensures t in Tokens(c, s) - {t0} {
      TokenIn(c, s', t.0, t.1);
      TokenIn(c, s, t.0, t.1);
    }
    SubsetCard(Tokens(c, s'), Tokens(c, s) - {t0});
  }

  // ---- One step -----------------------------------------------------------------------

  /** What one step may do to the budget: a committed lease costs one, renewed rows bring
      MaxAttempts + 1 each, and nothing else adds to it. */
  ghost predicate Pays(c: Config, s: State, a: Action)
    requires Enabled(c, s, a)
  {
    var s' := Apply(c, s, a);
    Left(c, s') + s'.h.leases <= Left(c, s) + s.h.leases + |CreditTokens(c, Renewed(s, a))|
  }

  /** Environment steps only remove rows, add fresh ones or make rows fresh, and record
      exactly those as renewed. */
  lemma EnvRenews(s: State, e: EnvStep)
    requires EnvEnabled(s, e)
    ensures var s', ks := EnvApply(s, e), Renewed(s, Env(e));
            && s'.pass == s.pass && s'.h.heads == s.h.heads
            && (forall k :: k in s'.q ==> if k in ks then s'.q[k] == FRESH else k in s.q && s'.q[k] == s.q[k])
            && (forall k :: At(s'.h.lives, k) == At(s.h.lives, k) + (if k in ks then 1 else 0))
            && (forall k :: At(s'.h.turns, k) == if k in ks then 0 else At(s.h.turns, k))
  {
  }

  lemma EnvPays(c: Config, s: State, e: EnvStep)
    requires EnvEnabled(s, e)
    ensures Pays(c, s, Env(e))
  {
    EnvRenews(s, e);
    EnvCounts(s, e);
    hide EnvApply, EnvEnabled, Renewed;
    var s', ks := EnvApply(s, e), Renewed(s, Env(e));
    forall k
      ensures k !in ks ==> Weight(c, s', k) <= Weight(c, s, k)
      ensures k in ks ==> Weight(c, s', k) <= c.maxAttempts + 1
    {
      SamePass(c, s, s', k);
    }
    Spend(c, s, s', ks);
  }

  lemma EnvCounts(s: State, e: EnvStep)
    requires EnvEnabled(s, e)
    ensures EnvApply(s, e).h.leases == s.h.leases
  {
  }

  lemma SamePass(c: Config, s: State, s': State, k: Key)
    requires s'.pass == s.pass
    ensures (exists i :: HeadsAt(s, i, k)) <==> (exists i :: HeadsAt(s', i, k))
    ensures (exists i :: MayReturn(c, s, i, k)) <==> (exists i :: MayReturn(c, s', i, k))
  {
    forall i ensures HeadsAt(s, i, k) <==> HeadsAt(s', i, k) {}
    forall i ensures MayReturn(c, s, i, k) <==> MayReturn(c, s', i, k) {}
  }

  /** Only the worker serving k's subscription can head or return k. */
  lemma OwnerOnly(c: Config, s: State, i: int, k: Key)
    requires Live(s, i) && PassOk(c, s.pass) && s.pass.ids[i] == k.sub
    ensures (exists j :: HeadsAt(s, j, k)) <==> HeadsAt(s, i, k)
    ensures (exists j :: MayReturn(c, s, j, k)) <==> MayReturn(c, s, i, k)
  {
  }

  lemma OtherSub(c: Config, s: State, i: nat, w: WorkStep, k: Key)
    requires WorkEnabled(c, s, i, w) && k.sub != s.pass.ids[i]
    ensures Weight(c, WorkApply(c, s, i, w), k) == Weight(c, s, k)
  {
    var s' := WorkApply(c, s, i, w);
    OwnRowsOnly(c, s, i, w);
    forall j ensures HeadsAt(s, j, k) <==> HeadsAt(s', j, k) {}
    forall j ensures MayReturn(c, s, j, k) <==> MayReturn(c, s', j, k) {}
  }

  /** No worker step makes a row worth more, except that a failed lease gives the head back
      the one its selection took. */
  lemma WorkWeight(c: Config, s: State, i: nat, w: WorkStep, k: Key)
    requires WorkEnabled(c, s, i, w) && Inv(c, s) && ValidConfig(c)
    ensures var back := if w == LeaseWrite(Failed) && HeadsAt(s, i, k) then 1 else 0;
            Weight(c, WorkApply(c, s, i, w), k) <= Weight(c, s, k) + back
  {
    var s' := WorkApply(c, s, i, w);
    if k.sub != s.pass.ids[i] {
      OtherSub(c, s, i, w, k);
    } else {
      OwnRowsOnly(c, s, i, w);
      MoveCounts(c, s, i, w);
      OwnerOnly(c, s, i, k);
      OwnerOnly(c, s', i, k);
      assert WorkerOk(c, s.q, s.now, s.h.acked, k.sub, s.pass.workers[i]);
      if k in s.q {
        RowEffect(c, s, i, w, k);
        hide Effect, NextPc;
        OwnWeight(c, s, i, w, k);
      }
    }
  }

  lemma OwnWeight(c: Config, s: State, i: nat, w: WorkStep, k: Key)
    requires WorkEnabled(c, s, i, w) && k in s.q && k.sub == s.pass.ids[i]
    requires WorkerOk(c, s.q, s.now, s.h.acked, k.sub, s.pass.workers[i])
    ensures var pc, pc', n := s.pass.workers[i], NextPc(c, s, i, w), k.seqNo;
            RowWeight(c, RowAfter(c, s.q[k], pc, w, n), Heads(pc', n), Returns(c, pc', n))
              <= RowWeight(c, s.q[k], Heads(pc, n), Returns(c, pc, n))
                 + (if w == LeaseWrite(Failed) && Heads(pc, n) then 1 else 0)
  {
    hide Payload, DueBatch;
  }

  lemma {:induction false} ClaimsUpdate(ws: seq<Pc>, i: nat, pc: Pc)
    requires i < |ws|
    ensures Claims(ws[i := pc]) == Claims(ws) - (if ws[i].Selected? then 1 else 0) + (if pc.Selected? then 1 else 0)
  {
    var n := |ws| - 1;
    if i == n {
      assert ws[i := pc][..n] == ws[..n];
    } else {
      assert ws[i := pc][..n] == ws[..n][i := pc];
      ClaimsUpdate(ws[..n], i, pc);
    }
  }

  lemma FailedLeasePays(c: Config, s: State, i: nat)
    requires WorkEnabled(c, s, i, LeaseWrite(Failed)) && Inv(c, s) && ValidConfig(c)
    ensures Pays(c, s, Work(i, LeaseWrite(Failed)))
  {
    var w := LeaseWrite(Failed);
    var s' := WorkApply(c, s, i, w);
    var head := Key(s.pass.ids[i], s.pass.workers[i].lease.seqs[0]);
    forall k ensures Weight(c, s', k) <= Weight(c, s, k) + (if k in {head} then 1 else 0) {
      WorkWeight(c, s, i, w, k);
    }
    ClaimsUpdate(s.pass.workers, i, Returned);
    GiveBack(c, s, s', {head});
  }

  lemma SelectPays(c: Config, s: State, i: nat)
    requires WorkEnabled(c, s, i, Select) && Inv(c, s) && ValidConfig(c) && NextPc(c, s, i, Select).Selected?
    ensures Pays(c, s, Work(i, Select))
  {
    var s' := WorkApply(c, s, i, Select);
    var pc' := NextPc(c, s, i, Select);
    var head := Key(s.pass.ids[i], pc'.lease.seqs[0]);
    forall k ensures Weight(c, s', k) <= Weight(c, s, k) {
      WorkWeight(c, s, i, Select, k);
    }
    ClaimsUpdate(s.pass.workers, i, pc');
    OwnerOnly(c, s, i, head);
    assert HeadsAt(s', i, head);
    SpendOne(c, s, s', head);
  }

  lemma WorkPays(c: Config, s: State, i: nat, w: WorkStep)
    requires WorkEnabled(c, s, i, w) && Inv(c, s) && ValidConfig(c)
    ensures Pays(c, s, Work(i, w))
  {
    if w == LeaseWrite(Failed) {
      FailedLeasePays(c, s, i);
    } else if w.Select? && NextPc(c, s, i, w).Selected? {
      SelectPays(c, s, i);
    } else {
      forall k ensures Weight(c, WorkApply(c, s, i, w), k) <= Weight(c, s, k) {
        WorkWeight(c, s, i, w, k);
      }
      Spend(c, s, WorkApply(c, s, i, w), {});
      ClaimsUpdate(s.pass.workers, i, NextPc(c, s, i, w));
      CountEffects(c, s, i, w);
      OwnRowsOnly(c, s, i, w);
      hide Effect, Tokens, Weight, Inv, DueBatch, Payload, Claims, Bump;
    }
  }

  ghost function Tops(c: Config, s: State, heads: set<Key>): set<(Key, nat)> {
    set k | k in heads :: (k, Weight(c, s, k))
  }

  lemma TopsCount(c: Config, s: State, heads: set<Key>)
    ensures |Tops(c, s, heads)| <= |heads|
  {
    if heads != {} {
      var k0 :| k0 in heads;
      TopsCount(c, s, heads - {k0});
      assert Tops(c, s, heads) == Tops(c, s, heads - {k0}) + {(k0, Weight(c, s, k0))};
    }
  }

  /** Giving one back to each of a few rows adds at most that many tokens. */
  lemma GiveBack(c: Config, s: State, s': State, heads: set<Key>)
    requires forall k :: Weight(c, s', k) <= Weight(c, s, k) + (if k in heads then 1 else 0)
    ensures |Tokens(c, s')| <= |Tokens(c, s)| + |heads|
  {
    var before, extra := Tokens(c, s), Tops(c, s, heads);
    forall k, n | (k, n) in Tokens(c, s') ensures (k, n) in before + extra {
      TokenIn(c, s', k, n);
      TokenIn(c, s, k, n);
      if (k, n) !in before {
        assert k in heads && n == Weight(c, s, k);
      }
    }
    assert Tokens(c, s') <= before + extra;
    SubsetCard(Tokens(c, s'), before + extra);
    UnionCard(before, extra);
    TopsCount(c, s, heads);
  }

  /** The heads of all selected batches. */
  function SelectedHeads(ids: seq<SubId>, ws: seq<Pc>): set<Key>
    requires |ws| <= |ids|
  {
    if ws == [] then {} else
      var n := |ws| - 1;
      SelectedHeads(ids, ws[..n]) +
      (if ws[n].Selected? && ws[n].lease.seqs != [] then {Key(ids[n], ws[n].lease.seqs[0])} else {})
  }

  lemma {:induction false} SelectedHeadsCount(ids: seq<SubId>, ws: seq<Pc>)
    requires |ws| <= |ids|
    ensures |SelectedHeads(ids, ws)| <= Claims(ws)
    ensures forall i :: 0 <= i < |ws| && ws[i].Selected? && ws[i].lease.seqs != [] ==>
              Key(ids[i], ws[i].lease.seqs[0]) in SelectedHeads(ids, ws)
  {
    if ws != [] {
      SelectedHeadsCount(ids, ws[..|ws| - 1]);
    }
  }

  lemma CrashPays(c: Config, s: State)
    requires Inv(c, s)
    ensures Pays(c, s, Proc(Crash))
  {
    var s' := ProcApply(c, s, Crash);
    var heads := if s.pass.Draining? then SelectedHeads(s.pass.ids, s.pass.workers) else {};
    if s.pass.Draining? {
      SelectedHeadsCount(s.pass.ids, s.pass.workers);
    }
    forall k ensures Weight(c, s', k) <= Weight(c, s, k) + (if k in heads then 1 else 0) {
      if i :| HeadsAt(s, i, k) {
        assert k == Key(s.pass.ids[i], s.pass.workers[i].lease.seqs[0]);
      }
    }
    GiveBack(c, s, s', heads);
  }

  /** Control moved, but every batch a worker had selected or may return is still there. */
  lemma ControlOnly(c: Config, s: State, s': State)
    requires s'.q == s.q
    requires forall i, k :: HeadsAt(s, i, k) ==> HeadsAt(s', i, k)
    requires forall i, k :: MayReturn(c, s', i, k) ==> MayReturn(c, s, i, k)
    ensures |Tokens(c, s')| <= |Tokens(c, s)|
  {
    forall k ensures Weight(c, s', k) <= Weight(c, s, k) {
      if i :| HeadsAt(s, i, k) {
        assert HeadsAt(s', i, k);
      }
    }
    Spend(c, s, s', {});
  }

  lemma ClaimsAppend(ws: seq<Pc>, pc: Pc)
    ensures Claims(ws + [pc]) == Claims(ws) + (if pc.Selected? then 1 else 0)
  {
  }

  lemma BootPays(c: Config, s: State, recovered: bool)
    requires !s.up && Inv(c, s)
    ensures Pays(c, s, Proc(Boot(recovered)))
  {
    Spend(c, s, ProcApply(c, s, Boot(recovered)), Renewed(s, Proc(Boot(recovered))));
  }

  lemma CollectPays(c: Config, s: State)
    requires ProcEnabled(c, s, Collect) && Inv(c, s)
    ensures Pays(c, s, Proc(Collect))
  {
    var s' := ProcApply(c, s, Collect);
    if s'.pass.Idle? {
      EndedBound(s.pass.workers);
      AllEnded(s.pass.workers);
    }
    ControlOnly(c, s, s');
  }

  lemma ProcPays(c: Config, s: State, p: ProcStep)
    requires ProcEnabled(c, s, p) && Inv(c, s)
    ensures Pays(c, s, Proc(p))
  {
    match p
    case Crash => CrashPays(c, s);
    case Boot(recovered) => BootPays(c, s, recovered);
    case BeginPass(_) => ControlOnly(c, s, ProcApply(c, s, p));
    case Spawn =>
      ClaimsAppend(s.pass.workers, Start);
      ControlOnly(c, s, ProcApply(c, s, p));
    case Collect => CollectPays(c, s);
  }

  lemma StepPays(c: Config, s: State, a: Action)
    requires ValidConfig(c) && Inv(c, s) && Enabled(c, s, a)
    ensures Pays(c, s, a)
  {
    match a
    case Env(e) => EnvPays(c, s, e);
    case Proc(p) => ProcPays(c, s, p);
    case Work(i, w) => WorkPays(c, s, i, w);
  }

  // ---- Runs ---------------------------------------------------------------------------

  /** Rows made pending anew over a run: inserted, requeued and recovered. */
  function Renewals(c: Config, s: State, acts: seq<Action>): nat
    requires Runs(c, s, acts)
    decreases |acts|
  {
    if acts == [] then 0 else |Renewed(s, acts[0])| + Renewals(c, Apply(c, s, acts[0]), acts[1..])
  }

  function Credit(c: Config, s: State, acts: seq<Action>): nat
    requires Runs(c, s, acts)
    decreases |acts|
  {
    if acts == [] then 0
    else |CreditTokens(c, Renewed(s, acts[0]))| + Credit(c, Apply(c, s, acts[0]), acts[1..])
  }

  lemma {:induction false} CreditPerRenewal(c: Config, s: State, acts: seq<Action>)
    requires Runs(c, s, acts)
    ensures Credit(c, s, acts) == Times(c.maxAttempts + 1, Renewals(c, s, acts))
    decreases |acts|
  {
    hide Apply, Enabled, Renewed, CreditTokens;
    if acts != [] {
      var s', n := Apply(c, s, acts[0]), |Renewed(s, acts[0])|;
      CreditCount(c, Renewed(s, acts[0]));
      CreditPerRenewal(c, s', acts[1..]);
      TimesAdd(c.maxAttempts + 1, n, Renewals(c, s', acts[1..]));
    }
  }

  lemma {:induction false} RunPays(c: Config, s: State, acts: seq<Action>)
    requires ValidConfig(c) && Inv(c, s) && Runs(c, s, acts)
    ensures var e := EndState(c, s, acts);
            Left(c, e) + e.h.leases <= Left(c, s) + s.h.leases + Credit(c, s, acts)
    decreases |acts|
  {
    if acts != [] {
      StepPays(c, s, acts[0]);
      StepKeeps(c, s, acts[0]);
      RunPays(c, Apply(c, s, acts[0]), acts[1..]);
    }
  }

  /** Lease updates that reach the database, read off the actions. */
  function LeasesIn(acts: seq<Action>): nat {
    if acts == [] then 0 else
      (if acts[0].Work? && acts[0].w.LeaseWrite? && !acts[0].w.result.Failed? then 1 else 0) + LeasesIn(acts[1..])
  }

  lemma LeaseCounted(c: Config, s: State, a: Action)
    requires Enabled(c, s, a)
    ensures Apply(c, s, a).h.leases == s.h.leases + LeasesIn([a])
  {
    assert LeasesIn([a][1..]) == 0;
    match a
    case Env(e) => EnvCounts(s, e);
    case Proc(p) =>
    case Work(i, w) =>
      CountEffects(c, s, i, w);
      hide Effect, NextPc;
  }

  lemma {:induction false} LeasesAreCounted(c: Config, s: State, acts: seq<Action>)
    requires Runs(c, s, acts)
    ensures EndState(c, s, acts).h.leases == s.h.leases + LeasesIn(acts)
    decreases |acts|
  {
    hide Apply, Enabled;
    if acts != [] {
      LeaseCounted(c, s, acts[0]);
      assert LeasesIn([acts[0]][1..]) == 0;
      LeasesAreCounted(c, Apply(c, s, acts[0]), acts[1..]);
    }
  }

  /** Whatever the endpoints answer and whatever fails or crashes, the batches leased in a
      run are at most MaxAttempts + 1 per row that was enqueued, requeued or recovered. */
  lemma BatchesAreBounded(c: Config, s: State, acts: seq<Action>)
    requires ValidConfig(c) && Initial(s) && Runs(c, s, acts)
    ensures LeasesIn(acts) <= (c.maxAttempts + 1) * Renewals(c, s, acts)
  {
    RunPays(c, s, acts);
    LeasesAreCounted(c, s, acts);
    CreditPerRenewal(c, s, acts);
    TimesIsProduct(c.maxAttempts + 1, Renewals(c, s, acts));
    assert Tokens(c, s) == {};
  }

  ghost predicate Quiet(c: Config, s: State, acts: seq<Action>)
    requires Runs(c, s, acts)
    decreases |acts|
  {
    acts != [] ==> Renewed(s, acts[0]) == {} && Quiet(c, Apply(c, s, acts[0]), acts[1..])
  }

  lemma {:induction false} QuietRenewsNothing(c: Config, s: State, acts: seq<Action>)
    requires Runs(c, s, acts) && Quiet(c, s, acts)
    ensures Credit(c, s, acts) == 0
    decreases |acts|
  {
    if acts != [] {
      CreditCount(c, {});
      QuietRenewsNothing(c, Apply(c, s, acts[0]), acts[1..]);
    }
  }

  /** The sum over pending rows of 1 + max(0, MaxAttempts - attempt), as a set of tokens. */
  function PendingTokens(c: Config, q: Deliveries): set<(Key, nat)> {
    set k, n | k in q.Keys && 0 <= n < (if q[k].status.Pending? then Worth(c, q[k].attempt) else 0) :: (k, n)
  }

  /** With nothing enqueued, requeued or recovered, at most that many batches follow, and
      each of them has lowered the sum. */
  lemma RetryingTerminates(c: Config, s: State, acts: seq<Action>)
    requires ValidConfig(c) && Inv(c, s) && s.pass.Idle? && Runs(c, s, acts) && Quiet(c, s, acts)
    ensures var e := EndState(c, s, acts);
            && LeasesIn(acts) <= |PendingTokens(c, s.q)|
            && (e.pass.Idle? ==> |PendingTokens(c, e.q)| + LeasesIn(acts) <= |PendingTokens(c, s.q)|)
  {
    RunPays(c, s, acts);
    LeasesAreCounted(c, s, acts);
    QuietRenewsNothing(c, s, acts);
    IdleTokens(c, s);
    if EndState(c, s, acts).pass.Idle? {
      IdleTokens(c, EndState(c, s, acts));
    }
  }

  lemma IdleTokens(c: Config, s: State)
    requires s.pass.Idle?
    ensures Tokens(c, s) == PendingTokens(c, s.q) && Left(c, s) == |PendingTokens(c, s.q)|
  {
  }
}
