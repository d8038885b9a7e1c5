/** What a submitted call is answered, and what is published for it (internal/syncengine/engine.go Submit): everything its
    commit added, in order; and alone in a quiet trip it is answered as it would run alone. */
module Publication {
  import opened Outcomes
  import opened Domain
  import opened Tables
  import opened Writes
  import opened Convergence
  import opened Transactions
  import opened Merging
  import opened WriteMachine

  // ----- everything a commit added is published -----

  /** The operations the i-th committed call added to the log. */
  ghost function Added(history: seq<Call>, i: nat): seq<Op>
    requires i < |history|
  {
    var before, after := Replay(history[..i]).log, Replay(history[..i + 1]).log;
    if |before| <= |after| then after[|before|..] else []
  }

  /** The call has committed, and these are the operations it added. */
  ghost predicate AddedBy(history: seq<Call>, call: Call, ops: seq<Op>) {
    exists i :: 0 <= i < |history| && history[i] == call && Added(history, i) == ops
  }

  /** ops stand in published, one after another. */
  ghost predicate InFull(published: seq<Op>, ops: seq<Op>) {
    exists k: nat :: StandsAt(published, ops, k)
  }

  predicate StandsAt(published: seq<Op>, ops: seq<Op>, k: nat) {
    k + |ops| <= |published| && published[k..k + |ops|] == ops
  }

  ghost predicate Kept(w: World, tx: Tx) {
    match tx.phase
    case Publishing(ops) => AddedBy(w.history, tx.call, ops)
    case Answered(answer) =>
      answer.Accepted? ==> AddedBy(w.history, tx.call, answer.ops) && InFull(w.published, answer.ops)
    case _ => true
  }

  ghost predicate AllKept(w: World) {
    forall t :: t in w.txs ==> Kept(w, w.txs[t])
  }

  lemma AddedOutlives(history: seq<Call>, more: seq<Call>, call: Call, ops: seq<Op>)
    requires AddedBy(history, call, ops)
    ensures AddedBy(history + more, call, ops)
  {
    var i :| 0 <= i < |history| && history[i] == call && Added(history, i) == ops;
    assert (history + more)[..i] == history[..i] && (history + more)[..i + 1] == history[..i + 1];
    assert (history + more)[i] == call && Added(history + more, i) == ops;
  }

  lemma InFullOutlives(published: seq<Op>, more: seq<Op>, ops: seq<Op>)
    requires InFull(published, ops)
    ensures InFull(published + more, ops)
  {
    var k: nat :| StandsAt(published, ops, k);
    assert (published + more)[k..k + |ops|] == ops;
    assert StandsAt(published + more, ops, k);
  }

  lemma KeptOutlives(w: World, w': World, tx: Tx, calls: seq<Call>, ops: seq<Op>)
    requires Kept(w, tx) && w'.history == w.history + calls && w'.published == w.published + ops
    ensures Kept(w', tx)
  {
    if tx.phase.Publishing? {
      AddedOutlives(w.history, calls, tx.call, tx.phase.ops);
    } else if tx.phase.Answered? && tx.phase.answer.Accepted? {
      AddedOutlives(w.history, calls, tx.call, tx.phase.answer.ops);
      InFullOutlives(w.published, ops, tx.phase.answer.ops);
    }
  }

  lemma EndsWith(history: seq<Call>, call: Call)
    ensures var all := history + [call];
      all[..|history|] == history && all[..|history| + 1] == all && all[|history|] == call
  {
  }

  lemma CommitAdds(w: World, t: TxId)
    requires Inv(w) && AtCommit(w, t)
    ensures var w' := CommittedWorld(w, t);
      w'.txs[t].phase.Publishing? && AddedBy(w'.history, w.txs[t].call, w'.txs[t].phase.ops)
  {
    var call, after := w.txs[t].call, View(w, w.txs[t].phase.effects);
    CommitExtends(w, t);
    HistoryExtends(w, call, after);
    EndsWith(w.history, call);
    AddedAt(w.history + [call], |w.history|, w.db.log, after.log);
  }

  lemma {:induction false} AddedAt(history: seq<Call>, i: nat, before: seq<Op>, after: seq<Op>)
    requires i < |history| && Replay(history[..i]).log == before && Replay(history[..i + 1]).log == after
    requires |before| <= |after|
    ensures AddedBy(history, history[i], after[|before|..])
  {
    assert Added(history, i) == after[|before|..];
  }

  lemma PublishedInFull(published: seq<Op>, ops: seq<Op>)
    ensures InFull(published + ops, ops)
  {
    assert (published + ops)[|published|..|published| + |ops|] == ops;
    assert StandsAt(published + ops, ops, |published|);
  }

  /** What an action adds to the history and to what is published. */
  lemma TakeAdds(w: World, a: Action) returns (calls: seq<Call>, ops: seq<Op>)
    ensures Take(w, a).history == w.history + calls && Take(w, a).published == w.published + ops
  {
    calls := if a.Commit? && AtCommit(w, a.t) then [w.txs[a.t].call] else [];
    ops := if a.Publish? && a.t in w.txs && w.txs[a.t].phase.Publishing? then w.txs[a.t].phase.ops else [];
    assert w.history + [] == w.history && w.published + [] == w.published;
  }

  lemma OthersStay(w: World, a: Action, t: TxId)
    requires t in Take(w, a).txs && (t !in w.txs || Take(w, a).txs[t] != w.txs[t])
    ensures a.t == t
  {
  }

  /** The one call an action moves. */
  lemma MovedIsKept(w: World, a: Action)
    requires Inv(w) && AllKept(w) && a.t in Take(w, a).txs
    requires a.t !in w.txs || Take(w, a).txs[a.t] != w.txs[a.t]
    ensures Kept(Take(w, a), Take(w, a).txs[a.t])
  {
    if a.Commit? {
      CommitAdds(w, a.t);
    } else if a.Publish? {
      assert Kept(w, w.txs[a.t]);
      PublishedInFull(w.published, w.txs[a.t].phase.ops);
    }
  }

  lemma TakeKeepsAll(w: World, a: Action)
    requires Inv(w) && AllKept(w)
    ensures AllKept(Take(w, a))
  {
    var w' := Take(w, a);
    var calls, ops := TakeAdds(w, a);
    forall t | t in w'.txs ensures Kept(w', w'.txs[t]) {
      if t in w.txs && w'.txs[t] == w.txs[t] {
        KeptOutlives(w, w', w.txs[t], calls, ops);
      } else {
        OthersStay(w, a, t);
        MovedIsKept(w, a);
      }
    }
  }

  lemma {:induction false} EveryRunKeeps(actions: seq<Action>)
    ensures AllKept(Run(actions))
  {
    if actions != [] {
      EveryRunKeeps(actions[..|actions| - 1]);
      EveryRun(actions[..|actions| - 1]);
      TakeKeepsAll(Run(actions[..|actions| - 1]), actions[|actions| - 1]);
    }
  }

  /** In every run a call that was accepted has been committed, its answer is exactly what its commit added to the log, and all of
      that has been published, in order. */
  lemma AcceptedIsPublished(actions: seq<Action>, t: TxId, ops: seq<Op>)
    requires t in Run(actions).txs && Run(actions).txs[t].phase == Answered(Accepted(ops))
    ensures var w := Run(actions);
      AddedBy(w.history, w.txs[t].call, ops) && InFull(w.published, ops) && CallAdds(w.txs[t].call, ops)
  {
    EveryRunKeeps(actions);
    EveryRun(actions);
    assert Kept(Run(actions), Run(actions).txs[t]);
    assert TxSound(Run(actions), t, Run(actions).txs[t]);
  }

  /** A write is rolled back for the very reason it would be if it ran alone on what is then committed. */
  lemma RefusedAsAlone(actions: seq<Action>, t: TxId)
    requires AtRollback(Run(actions), t)
    ensures var w := Run(actions); Atomic(w.txs[t].call, w.db) == RolledBack(w.txs[t].phase.pc.error)
  {
    EveryRun(actions);
    assert TxSound(Run(actions), t, Run(actions).txs[t]);
  }

  // ----- alone in a quiet trip -----

  /** What a call is answered that has the trip to itself. */
  ghost function AnswerAlone(call: Call, db: Db): Answer {
    if Found(call, db.log).Some? then Replayed(Found(call, db.log).value)
    else
      match Atomic(call, db)
      case Committed(after) => Accepted(if |db.log| <= |after.log| then after.log[|db.log|..] else [])
      case RolledBack(e) => Refused(e)
  }

  /** Only t has moved, and its statements have failed. */
  ghost predicate FailedWith(w: World, w': World, t: TxId, e: DbError) {
    && t in w.txs && OnlyMoves(w, w', t) && w'.holder == w.holder && w'.history == w.history && w'.published == w.published
    && w'.txs[t].call == w.txs[t].call && AtRollback(w', t) && w'.txs[t].phase.pc.error == e
  }

  lemma FailedFromThere(w: World, w1: World, w': World, t: TxId, phase: Phase, e: DbError)
    requires t in w.txs && w1 == w.(txs := To(w, t, phase)) && FailedWith(w1, w', t, e)
    ensures FailedWith(w, w', t, e)
  {
  }

  lemma {:induction false} StatementsFail(w: World, t: TxId, pc: Pc, effects: seq<Effect>, e: DbError)
      returns (actions: seq<Action>)
    requires t in w.txs && w.txs[t].phase == Running(pc, effects)
    requires Completion(w.txs[t].call, pc, View(w, effects)) == RolledBack(e)
    ensures FailedWith(w, TakeAll(w, actions), t, e)
    decreases Left(pc)
  {
    actions := [];
    if !pc.Failed? {
      StatementOnce(w, t, pc, effects);
      var w1, s := Take(w, Statement(t)), Next(w.txs[t].call, pc, View(w, effects));
      var rest := StatementsFail(w1, t, s.pc, effects + s.effects, e);
      FailedFromThere(w, w1, TakeAll(w1, rest), t, Running(s.pc, effects + s.effects), e);
      TakeFirst(w, Statement(t), rest);
      actions := [Statement(t)] + rest;
    }
  }

  /** After a call that nobody interferes with: its answer, and the database and the published operations it leaves. */
  ghost predicate AnsweredAlone(w: World, w': World, t: TxId, call: Call) {
    var answer := AnswerAlone(call, w.db);
    && t in w'.txs && w'.txs[t] == Tx(call, Answered(answer)) && w'.holder.None?
    && w'.db == (if answer.Accepted? then Atomic(call, w.db).db else w.db)
    && w'.published == (if answer.Accepted? then w.published + answer.ops else w.published)
  }

  lemma Arrives(w: World, t: TxId, call: Call)
    requires w.holder.None? && t !in w.txs && Arrive(call, w.db.log).Waiting?
    ensures var w2 := Take(Take(w, Submit(t, call)), Lock(t));
      Begun(w, w2, t, call) && w2.published == w.published && View(w2, []) == w.db
  {
    var w1 := Take(w, Submit(t, call));
    assert w1.txs[t] == Tx(call, Waiting);
  }

  lemma AcceptedAlone(w: World, t: TxId, call: Call) returns (actions: seq<Action>)
    requires w.holder.None? && t !in w.txs && Arrive(call, w.db.log).Waiting? && Atomic(call, w.db).Committed?
    requires Refusal(call.intent).None?
    ensures AnsweredAlone(w, TakeAll(w, actions), t, call)
  {
    Arrives(w, t, call);
    var w1 := Take(w, Submit(t, call));
    var w2 := Take(w1, Lock(t));
    var statements := StatementsRun(w2, t, Reading, [], Atomic(call, w.db).db);
    var w3 := TakeAll(w2, statements);
    CommitsAndPublishes(w, w2, w3, t, call);
    TakeOn(w2, statements, Commit(t));
    TakeOn(w2, statements + [Commit(t)], Publish(t));
    TakeFirst(w1, Lock(t), statements + [Commit(t)] + [Publish(t)]);
    TakeFirst(w, Submit(t, call), [Lock(t)] + (statements + [Commit(t)] + [Publish(t)]));
    actions := [Submit(t, call)] + ([Lock(t)] + (statements + [Commit(t)] + [Publish(t)]));
  }

  lemma CommitsAndPublishes(w: World, w2: World, w3: World, t: TxId, call: Call)
    requires Begun(w, w2, t, call) && w2.published == w.published && Found(call, w.db.log).None?
    requires Atomic(call, w.db).Committed? && DoneWith(w2, w3, t, Atomic(call, w.db).db)
    ensures AnsweredAlone(w, Take(Take(w3, Commit(t)), Publish(t)), t, call)
  {
    assert w3.txs[t].call == call && w3.holder == Some(t) && w3.db == w.db;
  }

  lemma RefusedAlone(w: World, t: TxId, call: Call) returns (actions: seq<Action>)
    requires w.holder.None? && t !in w.txs && Arrive(call, w.db.log).Waiting? && Atomic(call, w.db).RolledBack?
    requires Refusal(call.intent).None? && Found(call, w.db.log).None?
    ensures AnsweredAlone(w, TakeAll(w, actions), t, call)
  {
    var e := Atomic(call, w.db).error;
    Arrives(w, t, call);
    var w1 := Take(w, Submit(t, call));
    var w2 := Take(w1, Lock(t));
    var statements := StatementsFail(w2, t, Reading, [], e);
    var w3 := TakeAll(w2, statements);
    RollsBack(w, w2, w3, t, call, e);
    TakeOn(w2, statements, Rollback(t));
    TakeOn(w2, statements + [Rollback(t)], Recheck(t));
    TakeFirst(w1, Lock(t), statements + [Rollback(t)] + [Recheck(t)]);
    TakeFirst(w, Submit(t, call), [Lock(t)] + (statements + [Rollback(t)] + [Recheck(t)]));
    actions := [Submit(t, call)] + ([Lock(t)] + (statements + [Rollback(t)] + [Recheck(t)]));
  }

  lemma RollsBack(w: World, w2: World, w3: World, t: TxId, call: Call, e: DbError)
    requires Begun(w, w2, t, call) && w2.published == w.published && Found(call, w.db.log).None?
    requires Atomic(call, w.db) == RolledBack(e) && FailedWith(w2, w3, t, e)
    ensures AnsweredAlone(w, Take(Take(w3, Rollback(t)), Recheck(t)), t, call)
  {
    assert w3.txs[t].call == call && w3.holder == Some(t) && w3.db == w.db;
  }

  lemma ArrivesAnswered(w: World, t: TxId, call: Call)
    requires w.holder.None? && t !in w.txs && !Arrive(call, w.db.log).Waiting?
    ensures AnsweredAlone(w, Take(w, Submit(t, call)), t, call)
  {
  }

  /** In any reachable state that nobody holds the lock of, a submitted call that is left to itself is answered as it would run
      alone: with the operation already logged under its client id, with what its commit adds, or with the reason it is
      refused. */
  lemma {:induction false} SubmitAlone(before: seq<Action>, t: TxId, call: Call) returns (actions: seq<Action>)
    requires Run(before).holder.None? && t !in Run(before).txs
    ensures AnsweredAlone(Run(before), Run(before + actions), t, call)
  {
    var w := Run(before);
    if !Arrive(call, w.db.log).Waiting? {
      actions := [Submit(t, call)];
      assert [] + [Submit(t, call)] == actions;
      TakeOn(w, [], Submit(t, call));
      ArrivesAnswered(w, t, call);
    } else if Atomic(call, w.db).Committed? {
      actions := AcceptedAlone(w, t, call);
    } else {
      actions := RefusedAlone(w, t, call);
    }
    RunThenTake(before, actions);
  }
}
