/** A delivery pass always finishes: some goroutine can move as long as the pass runs, and
    every move of the dispatcher spends from a finite rank. */
module Pass {
  import opened Common
  import opened Queue
  import opened Protocol
  import opened Safety
  import opened Budget

  /** Moves of DrainOnce and its goroutines, as opposed to the world around them. */
  predicate IsDispatch(a: Action) {
    a.Work? || a == Proc(Spawn) || a == Proc(Collect)
  }

  /** A pending step exists whenever the pass runs: neither `sem` nor `done` can block
      everybody, for any number of workers at any control points. */
  lemma PassCannotStick(c: Config, s: State)
    requires ValidConfig(c) && Inv(c, s) && s.pass.Draining?
    ensures exists a :: IsDispatch(a) && Enabled(c, s, a)
  {
    var ws := s.pass.workers;
    EndedBound(ws);
    if i :| 0 <= i < |ws| && !ws[i].Finished? {
      CountUpdate(ws, i, Finished);
      assert [ws[i]][..0] == [] && [Finished][..0] == [];
      EndedBound(ws[i := Finished]);
      assert WorkerOk(c, s.q, s.now, s.h.acked, s.pass.ids[i], ws[i]);
      var w := match ws[i]
        case Start => Lookup(true)
        case Loop => Select
        case Selected(_) => LeaseWrite(Written)
        case Leased(_) => Fetch(true)
        case Fetched(b, p) => if |p| == |b.seqs| then Post(Ack) else Park(Written)
        case Posted(_, _) => Record(true, 0)
        case Returned => Release
        case Released => Signal
        case Finished => Abort;
      assert Enabled(c, s, Work(i, w));
      assert IsDispatch(Work(i, w));
    } else {
      NobodyLeft(ws);
      if |ws| < |s.pass.ids| {
        assert Enabled(c, s, Proc(Spawn));
      } else {
        assert Enabled(c, s, Proc(Collect));
      }
    }
  }

  lemma {:induction false} NobodyLeft(ws: seq<Pc>)
    requires forall i :: 0 <= i < |ws| ==> ws[i].Finished?
    ensures Holding(ws) == 0 && Ended(ws) == |ws|
  {
    if ws != [] {
      NobodyLeft(ws[..|ws| - 1]);
    }
  }

  /** DrainOnce returns only when every subscription of the pass has had its worker, and
      every worker has ended. */
  lemma PassReturnsLast(c: Config, s: State)
    requires ValidConfig(c) && Inv(c, s) && Enabled(c, s, Proc(Collect)) && Apply(c, s, Proc(Collect)).pass.Idle?
    ensures |s.pass.workers| == |s.pass.ids|
    ensures forall i :: Live(s, i) ==> s.pass.workers[i].Finished?
  {
    EndedBound(s.pass.workers);
    AllEnded(s.pass.workers);
  }

  // ---- The rank -----------------------------------------------------------------------

  function PcRank(pc: Pc): nat {
    match pc
    case Start => 8
    case Leased(_) => 7
    case Fetched(_, _) => 6
    case Posted(_, _) => 5
    case Loop => 4
    case Selected(_) => 3
    case Returned => 2
    case Released => 1
    case Finished => 0
  }

  function PcRanks(ws: seq<Pc>): nat {
    if ws == [] then 0 else PcRanks(ws[..|ws| - 1]) + PcRank(ws[|ws| - 1])
  }

  function ControlRank(p: Pass): nat
    requires p.Draining? ==> |p.workers| <= |p.ids| && p.collected <= |p.ids|
  {
    if p.Idle? then 0
    else 9 * (|p.ids| - |p.workers|) + PcRanks(p.workers) + (|p.ids| - p.collected)
  }

  ghost function Rank(c: Config, s: State): nat
    requires PassOk(c, s.pass)
  {
    10 * Left(c, s) + ControlRank(s.pass)
  }

  lemma {:induction false} RanksUpdate(ws: seq<Pc>, i: nat, pc: Pc)
    requires i < |ws|
    ensures PcRanks(ws[i := pc]) == PcRanks(ws) - PcRank(ws[i]) + PcRank(pc)
  {
    var n := |ws| - 1;
    if i == n {
      assert ws[i := pc][..n] == ws[..n];
    } else {
      assert ws[i := pc][..n] == ws[..n][i := pc];
      RanksUpdate(ws[..n], i, pc);
    }
  }

  /** A worker's control rank falls, or rises by less than the batch it has just leased. */
  lemma WorkerFalls(c: Config, s: State, i: nat, w: WorkStep)
    requires WorkEnabled(c, s, i, w)
    ensures var leased := Effect(c, s, i, w).h.leases - s.h.leases;
            && 0 <= leased <= 1
            && PcRank(NextPc(c, s, i, w)) < PcRank(s.pass.workers[i]) + 10 * leased
  {
    hide LeaseRows, DeliverRows, FailRows, Bump, BatchKeys, AdvanceCursor, DueBatch, Payload;
    match w
    case LeaseWrite(_) =>
    case Record(_, _) =>
    case _ =>
  }

  lemma ControlFalls(c: Config, s: State, a: Action)
    requires ValidConfig(c) && PassOk(c, s.pass) && Enabled(c, s, a) && IsDispatch(a)
    requires PassOk(c, Apply(c, s, a).pass)
    ensures var s' := Apply(c, s, a);
            ControlRank(s'.pass) < ControlRank(s.pass) + 10 * (s'.h.leases - s.h.leases)
  {
    var s' := Apply(c, s, a);
    if a.Work? {
      hide Effect, NextPc;
      WorkerFalls(c, s, a.i, a.w);
      RanksUpdate(s.pass.workers, a.i, NextPc(c, s, a.i, a.w));
    } else if a == Proc(Spawn) {
      assert s'.pass.workers[..|s.pass.workers|] == s.pass.workers;
    }
  }

  lemma DispatchFalls(c: Config, s: State, a: Action)
    requires ValidConfig(c) && Inv(c, s) && Enabled(c, s, a) && IsDispatch(a)
    requires PassOk(c, Apply(c, s, a).pass)
    ensures Rank(c, Apply(c, s, a)) < Rank(c, s)
  {
    StepPays(c, s, a);
    CreditCount(c, {});
    ControlFalls(c, s, a);
  }

  lemma EnvRank(c: Config, s: State, e: EnvStep)
    requires ValidConfig(c) && Inv(c, s) && EnvEnabled(s, e)
    ensures PassOk(c, EnvApply(s, e).pass)
    ensures Rank(c, EnvApply(s, e)) <= Rank(c, s) + 10 * |CreditTokens(c, Renewed(s, Env(e)))|
  {
    EnvPays(c, s, e);
  }

  /** One pass: dispatcher moves, with anything but a process restart in between. */
  predicate WithinPass(acts: seq<Action>) {
    forall a :: a in acts ==> a.Env? || IsDispatch(a)
  }

  function Moves(acts: seq<Action>): nat {
    if acts == [] then 0 else (if IsDispatch(acts[0]) then 1 else 0) + Moves(acts[1..])
  }

  lemma {:induction false} MovesArePaid(c: Config, s: State, acts: seq<Action>)
    requires ValidConfig(c) && Inv(c, s) && Runs(c, s, acts) && WithinPass(acts)
    ensures Moves(acts) <= Rank(c, s) + 10 * Credit(c, s, acts)
    decreases |acts|
  {
    if acts != [] {
      var a := acts[0];
      var s' := Apply(c, s, a);
      StepKeeps(c, s, a);
      MovesArePaid(c, s', acts[1..]);
      if IsDispatch(a) {
        DispatchFalls(c, s, a);
      } else {
        EnvRank(c, s, a.e);
      }
    }
  }

  /** However the endpoints answer and whatever the world does meanwhile, the moves of one
      pass are bounded by its rank at the start and by the rows renewed while it runs. */
  lemma PassFinishes(c: Config, s: State, acts: seq<Action>)
    requires ValidConfig(c) && Inv(c, s) && Runs(c, s, acts) && WithinPass(acts)
    ensures Moves(acts) <= Rank(c, s) + 10 * ((c.maxAttempts + 1) * Renewals(c, s, acts))
    ensures EndState(c, s, acts).pass.Draining? ==>
              exists a :: IsDispatch(a) && Enabled(c, EndState(c, s, acts), a)
  {
    MovesArePaid(c, s, acts);
    CreditPerRenewal(c, s, acts);
    TimesIsProduct(c.maxAttempts + 1, Renewals(c, s, acts));
    RunKeeps(c, s, acts);
    if EndState(c, s, acts).pass.Draining? {
      PassCannotStick(c, EndState(c, s, acts));
    }
  }

  /** A pass serves only subscriptions with a pending row whose retry time, if any, has come;
      and it serves all of them exactly when there are at most 4 * Concurrency. */
  lemma PassServesDue(c: Config, s: State, ids: seq<SubId>)
    requires ValidConfig(c) && ProcEnabled(c, s, BeginPass(ids))
    ensures forall id :: id in ids ==> exists k :: HasWork(s, k) && k.sub == id
    ensures (forall k :: HasWork(s, k) ==> k.sub in ids) <==> |DueSubs(s.q, s.now)| <= 4 * c.concurrency
    ensures forall id :: id in DueSubs(s.q, s.now) <==> exists k :: HasWork(s, k) && k.sub == id
  {
    PassCoversDue(c, s, ids);
    hide DuePage;
    forall id ensures id in DueSubs(s.q, s.now) <==> exists k :: HasWork(s, k) && k.sub == id {
      if k :| HasWork(s, k) && k.sub == id {
        assert k in s.q;
      }
      if id in DueSubs(s.q, s.now) {
        var k :| k in s.q && Due(s.q[k], s.now) && k.sub == id;
        assert HasWork(s, k);
      }
    }
    assert forall id :: id in ids ==> id in DueSubs(s.q, s.now) by {
      PageIsDue(c, s, ids);
    }
  }

  predicate HasWork(s: State, k: Key) {
    k in s.q && s.q[k].status.Pending? && (s.q[k].nextRetry.None? || s.q[k].nextRetry.value <= s.now)
  }

  lemma PageIsDue(c: Config, s: State, ids: seq<SubId>)
    requires ProcEnabled(c, s, BeginPass(ids))
    ensures forall id :: id in ids ==> id in DueSubs(s.q, s.now)
  {
  }

  lemma PassCoversDue(c: Config, s: State, ids: seq<SubId>)
    requires ValidConfig(c) && ProcEnabled(c, s, BeginPass(ids))
    ensures (forall id :: id in DueSubs(s.q, s.now) ==> id in ids) <==> |DueSubs(s.q, s.now)| <= 4 * c.concurrency
  {
    PageDistinct(s.q, s.now, c.concurrency * 4, ids);
    var page := set id | id in ids;
    DistinctCard(ids);
    SubsetCard(page, DueSubs(s.q, s.now));
    if forall id :: id in DueSubs(s.q, s.now) ==> id in ids {
      SubsetCard(DueSubs(s.q, s.now), page);
    }
  }

  function Before(due: set<SubId>, id: SubId): set<SubId> {
    set d | d in due && StringLess(d, id)
  }

  /** A due subscription is left out of a pass only if at least 4 * Concurrency due ones sort
      before it. */
  lemma LeftOutSortsLast(c: Config, s: State, ids: seq<SubId>, id: SubId)
    requires ValidConfig(c) && ProcEnabled(c, s, BeginPass(ids))
    requires id in DueSubs(s.q, s.now) && id !in ids
    ensures |Before(DueSubs(s.q, s.now), id)| >= 4 * c.concurrency
  {
    var due := DueSubs(s.q, s.now);
    var page := set d | d in ids;
    PassCoversDue(c, s, ids);
    PageDistinct(s.q, s.now, c.concurrency * 4, ids);
    DistinctCard(ids);
    hide DueSubs, StringLess;
    forall d | d in page ensures d in Before(due, id) {
      var i :| 0 <= i < |ids| && ids[i] == d;
    }
    SubsetCard(page, Before(due, id));
    hide Before;
  }

  lemma {:induction false} DistinctCard(ids: seq<SubId>)
    requires Distinct(ids)
    ensures |set id | id in ids| == |ids|
  {
    if ids != [] {
      var n := |ids| - 1;
      DistinctCard(ids[..n]);
      assert (set id | id in ids) == (set id | id in ids[..n]) + {ids[n]};
      assert ids[n] !in ids[..n];
    }
  }
}
