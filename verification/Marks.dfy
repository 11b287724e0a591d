/** The cursor as a mark: exactly when every row at or below it is delivered. */
module Marks {
  import opened Common
  import opened Queue
  import opened Protocol
  import opened Safety

  ghost predicate Unsettled(s: State, k: Key) {
    k in s.q && !s.q[k].status.Delivered?
  }

  /** Every row at or below its subscription's cursor is delivered. */
  ghost predicate Marked(s: State) {
    forall k :: Unsettled(s, k) && k.sub in s.subs ==> k.seqNo > s.subs[k.sub].cursor
  }

  /** The action leaves an undelivered row at or below a cursor: it adds or resets a row
      there, or moves a cursor over a row it does not deliver. */
  ghost predicate LeavesBehind(s: State, a: Action) {
    match a
    case Env(Enqueue(sub, seqs)) =>
      sub in s.subs && exists n :: n in seqs && Key(sub, n) !in s.q && n <= s.subs[sub].cursor
    case Env(Requeue(_, _, _, chosen)) =>
      exists k :: k in chosen && k.sub in s.subs && k.seqNo <= s.subs[k.sub].cursor
    case Env(CreateSub(id, record)) => Passes(s, id, record.cursor, [])
    case Env(AckCursor(id, v)) => Passes(s, id, v, [])
    case Work(i, Record(true, _)) =>
      && Live(s, i) && s.pass.workers[i].Posted? && s.pass.workers[i].answer.Ack?
      && var seqs := s.pass.workers[i].lease.seqs;
         seqs != [] && s.pass.ids[i] in s.subs && Passes(s, s.pass.ids[i], seqs[|seqs| - 1], seqs)
    case _ => false
  }

  /** Moving the cursor of `id` to v passes an undelivered row outside the batch. */
  ghost predicate Passes(s: State, id: SubId, v: int, seqs: seq<nat>) {
    exists k :: Unsettled(s, k) && k.sub == id && k.seqNo <= v && k.seqNo !in seqs
  }

  lemma EnvMarked(s: State, e: EnvStep)
    requires EnvEnabled(s, e) && Marked(s)
    ensures Marked(EnvApply(s, e)) <==> !LeavesBehind(s, Env(e))
  {
    hide Bump, Clear;
    var s' := EnvApply(s, e);
    match e
    case Enqueue(sub, seqs) =>
      if n :| LeavesBehind(s, Env(e)) && n in seqs && Key(sub, n) !in s.q && n <= s.subs[sub].cursor {
        assert Unsettled(s', Key(sub, n));
      }
      assert forall k :: Unsettled(s', k) ==> Unsettled(s, k) || (k.sub == sub && k.seqNo in seqs && k !in s.q);
    case Requeue(_, _, _, chosen) =>
      if k :| k in chosen && k.sub in s.subs && k.seqNo <= s.subs[k.sub].cursor {
        assert Unsettled(s', k);
      }
      assert forall k :: Unsettled(s', k) ==> Unsettled(s, k) || k in chosen;
    case CreateSub(id, record) => CursorMoves(s, s', id, record.cursor);
    case AckCursor(id, v) => CursorMoves(s, s', id, v);
    case _ =>
      assert forall k :: Unsettled(s', k) ==> Unsettled(s, k);
  }

  /** With the rows unchanged, only the moved cursor can pass one. */
  lemma CursorMoves(s: State, s': State, id: SubId, v: int)
    requires Marked(s) && s'.q == s.q && id in s'.subs && s'.subs.Keys == s.subs.Keys + {id}
    requires forall x :: x in s.subs && x != id ==> s'.subs[x] == s.subs[x]
    requires s'.subs[id].cursor == if id in s.subs then Max(s.subs[id].cursor, v) else v
    ensures Marked(s') <==> !Passes(s, id, v, [])
  {
  }

  lemma WorkMarked(c: Config, s: State, i: nat, w: WorkStep)
    requires WorkEnabled(c, s, i, w) && Inv(c, s) && Marked(s)
    ensures Marked(WorkApply(c, s, i, w)) <==> !LeavesBehind(s, Work(i, w))
  {
    var s' := WorkApply(c, s, i, w);
    var id, pc := s.pass.ids[i], s.pass.workers[i];
    assert WorkerOk(c, s.q, s.now, s.h.acked, id, pc);
    OwnRowsOnly(c, s, i, w);
    TableEffects(c, s, i, w);
    forall k | k in s.q
      ensures s'.q[k] == if k.sub == id then RowAfter(c, s.q[k], pc, w, k.seqNo) else s.q[k]
    {
      RowEffect(c, s, i, w, k);
    }
    hide Effect, NextPc, Inv, Buries, Marked, Passes;
    if w.Record? && w.written && pc.answer.Ack? {
      AckMarked(s, s', id, pc.lease.seqs);
    } else {
      SameMarks(s, s');
    }
  }

  lemma SameMarks(s: State, s': State)
    requires Marked(s) && s'.q.Keys == s.q.Keys && s'.subs == s.subs
    requires forall k :: k in s.q && s'.q[k].status != s.q[k].status ==>
               !s.q[k].status.Delivered? && !s'.q[k].status.Delivered?
    ensures Marked(s')
  {
    assert forall k :: Unsettled(s', k) <==> Unsettled(s, k);
  }

  lemma AckMarked(s: State, s': State, id: SubId, seqs: seq<nat>)
    requires Marked(s) && seqs != [] && s'.q.Keys == s.q.Keys
    requires forall k :: k in s.q ==>
               s'.q[k] == if InBatch(k, id, seqs) then s.q[k].(status := Delivered, nextRetry := None) else s.q[k]
    requires s'.subs == AdvanceCursor(s.subs, id, seqs[|seqs| - 1])
    ensures Marked(s') <==> !(id in s.subs && Passes(s, id, seqs[|seqs| - 1], seqs))
  {
  }

  /** A step keeps every row at or below its cursor delivered exactly if it leaves none
      behind. */
  lemma MarkStep(c: Config, s: State, a: Action)
    requires Inv(c, s) && Enabled(c, s, a) && Marked(s)
    ensures Marked(Apply(c, s, a)) <==> !LeavesBehind(s, a)
  {
    match a
    case Env(e) => EnvMarked(s, e);
    case Proc(p) =>
      assert forall k :: Unsettled(Apply(c, s, a), k) ==> Unsettled(s, k);
    case Work(i, w) => WorkMarked(c, s, i, w);
  }

  ghost predicate AlwaysMarked(c: Config, s: State, acts: seq<Action>)
    requires Runs(c, s, acts)
    decreases |acts|
  {
    Marked(s) && (acts != [] ==> AlwaysMarked(c, Apply(c, s, acts[0]), acts[1..]))
  }

  ghost predicate NoneLeftBehind(c: Config, s: State, acts: seq<Action>)
    requires Runs(c, s, acts)
    decreases |acts|
  {
    acts != [] ==> !LeavesBehind(s, acts[0]) && NoneLeftBehind(c, Apply(c, s, acts[0]), acts[1..])
  }

  /** Over every run: the cursors are marks below which everything is delivered if and only
      if no action of the run leaves an undelivered row behind. */
  lemma {:induction false} CursorIsMark(c: Config, s: State, acts: seq<Action>)
    requires ValidConfig(c) && Inv(c, s) && Runs(c, s, acts) && Marked(s)
    ensures AlwaysMarked(c, s, acts) <==> NoneLeftBehind(c, s, acts)
    decreases |acts|
  {
    hide Apply, Enabled, Inv, Marked, LeavesBehind;
    if acts != [] {
      MarkStep(c, s, acts[0]);
      StepKeeps(c, s, acts[0]);
      if !LeavesBehind(s, acts[0]) {
        CursorIsMark(c, Apply(c, s, acts[0]), acts[1..]);
      }
    }
  }
}
