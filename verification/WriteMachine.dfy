/** Concurrent writes to one trip, one statement at a time (internal/service/oplog.go write, internal/syncengine/engine.go
    Submit, LockTripForWrite and NextOpSeq). Any interleaving, with rollbacks and crashes anywhere, has the effect of
    running the committed writes one after another. */
module WriteMachine {
  import opened Outcomes
  import opened Domain
  import opened Folding
  import opened Tables
  import opened Writes
  import opened Convergence
  import opened Transactions
  import opened Merging
  import opened Exactness

  type TxId = nat

  /** Aborted: the database gave the transaction up as a deadlock or a serialization failure, which the repository reports
      with the error it has for a version conflict. */
  datatype Answer = Accepted(ops: seq<Op>) | Replayed(op: Op) | Refused(error: DbError) | Aborted | Lost

  /** Where one submitted call stands. Effects are what its open transaction has done; nobody else sees them. */
  datatype Phase =
    | Waiting                                    // for the trip's row lock
    | Running(pc: Pc, effects: seq<Effect>)
    | Rechecking                                 // rolled back on a duplicate; about to look the client id up again
    | Publishing(ops: seq<Op>)                   // committed, not yet published
    | Answered(answer: Answer)

  datatype Tx = Tx(call: Call, phase: Phase)

  /** The committed database, the holder of the trip's row lock, and two ghosts: what has been published, and the calls
      committed so far, in order. */
  datatype World = World(db: Db, holder: Option<TxId>, txs: map<TxId, Tx>, published: seq<Op>, history: seq<Call>)

  const START := World(EMPTY_DB, None, map[], [], [])

  datatype Action =
    | Submit(t: TxId, call: Call)
    | Lock(t: TxId)
    | Statement(t: TxId)
    | Commit(t: TxId)
    | Rollback(t: TxId)
    | Recheck(t: TxId)
    | Publish(t: TxId)
    | Abort(t: TxId)
    | Crash(t: TxId)

  /** GetOpByClientOpID over the committed log. */
  function FindByClientOp(log: seq<Op>, id: ID): Option<Op> {
    if log == [] then None
    else if log[|log| - 1].clientOp == Some(id) then Some(log[|log| - 1])
    else FindByClientOp(log[..|log| - 1], id)
  }

  function Found(call: Call, log: seq<Op>): Option<Op> {
    if call.clientOp.Some? then FindByClientOp(log, call.clientOp.value) else None
  }

  /** What a transaction's statements see: what is committed, under its own effects. */
  function View(w: World, effects: seq<Effect>): Db {
    AffectAll(w.db, effects)
  }

  function Released(w: World, t: TxId): Option<TxId> {
    if w.holder == Some(t) then None else w.holder
  }

  /** A call arrives: answered from the log when its client id is already there, refused before a transaction opens, or
      queued for the lock. */
  function Arrive(call: Call, log: seq<Op>): Phase {
    if Found(call, log).Some? then Answered(Replayed(Found(call, log).value))
    else if Refusal(call.intent).Some? then Answered(Refused(Refusal(call.intent).value))
    else Waiting
  }

  predicate AtStatement(w: World, t: TxId) {
    t in w.txs && w.txs[t].phase.Running? && !w.txs[t].phase.pc.Finished? && !w.txs[t].phase.pc.Failed?
  }

  predicate AtCommit(w: World, t: TxId) {
    t in w.txs && w.txs[t].phase.Running? && w.txs[t].phase.pc.Finished?
  }

  predicate AtRollback(w: World, t: TxId) {
    t in w.txs && w.txs[t].phase.Running? && w.txs[t].phase.pc.Failed?
  }

  function To(w: World, t: TxId, phase: Phase): map<TxId, Tx>
    requires t in w.txs
  {
    w.txs[t := w.txs[t].(phase := phase)]
  }

  ghost function Stepped(w: World, t: TxId): World
    requires AtStatement(w, t)
  {
    var tx := w.txs[t];
    var s := Next(tx.call, tx.phase.pc, View(w, tx.phase.effects));
    w.(txs := To(w, t, Running(s.pc, tx.phase.effects + s.effects)))
  }

  ghost function CommittedWorld(w: World, t: TxId): World
    requires AtCommit(w, t)
  {
    var tx := w.txs[t];
    var after := View(w, tx.phase.effects);
    var ops := if |w.db.log| <= |after.log| then after.log[|w.db.log|..] else [];
    World(after, Released(w, t), To(w, t, Publishing(ops)), w.published, w.history + [tx.call])
  }

  function AfterRollback(call: Call, e: DbError): Phase {
    if e.AlreadyExists? && call.clientOp.Some? then Rechecking else Answered(Refused(e))
  }

  function AfterRecheck(call: Call, log: seq<Op>): Phase {
    var found := Found(call, log);
    Answered(if found.Some? then Replayed(found.value) else Refused(AlreadyExists))
  }

  /** One action. An action that is not enabled changes nothing. No statement asks for the lock again: that the
      transactions exclude each other is a theorem, not a guard. */
  ghost function Take(w: World, a: Action): World {
    match a
    case Submit(t, call) =>
      if t in w.txs then w else w.(txs := w.txs[t := Tx(call, Arrive(call, w.db.log))])
    case Lock(t) =>
      if t in w.txs && w.txs[t].phase.Waiting? && w.holder.None?
      then w.(holder := Some(t), txs := To(w, t, Running(Reading, [])))
      else w
    case Statement(t) => if AtStatement(w, t) then Stepped(w, t) else w
    case Commit(t) => if AtCommit(w, t) then CommittedWorld(w, t) else w
    case Rollback(t) =>
      if AtRollback(w, t)
      then w.(holder := Released(w, t), txs := To(w, t, AfterRollback(w.txs[t].call, w.txs[t].phase.pc.error)))
      else w
    case Recheck(t) =>
      if t in w.txs && w.txs[t].phase.Rechecking? then w.(txs := To(w, t, AfterRecheck(w.txs[t].call, w.db.log))) else w
    case Publish(t) =>
      if t in w.txs && w.txs[t].phase.Publishing? then
        var ops := w.txs[t].phase.ops;
        w.(published := w.published + ops, txs := To(w, t, Answered(Accepted(ops))))
      else w
    case Abort(t) =>
      if t in w.txs && w.txs[t].phase.Running?
      then w.(holder := Released(w, t), txs := To(w, t, Answered(Aborted)))
      else w
    case Crash(t) =>
      if t in w.txs && !w.txs[t].phase.Answered?
      then w.(holder := Released(w, t), txs := To(w, t, Answered(Lost)))
      else w
  }

  ghost function Run(actions: seq<Action>): World {
    if actions == [] then START else Take(Run(actions[..|actions| - 1]), actions[|actions| - 1])
  }

  // ----- running the committed calls one after another -----

  /** The database after the calls, each run alone, in order. */
  ghost function Replay(calls: seq<Call>): Db {
    if calls == [] then EMPTY_DB
    else
      var before := Replay(calls[..|calls| - 1]);
      match Atomic(calls[|calls| - 1], before)
      case Committed(db) => db
      case RolledBack(_) => before
  }

  /** Each of the calls commits when run after those before it. */
  ghost predicate AllCommit(calls: seq<Call>) {
    forall i :: 0 <= i < |calls| ==> Atomic(calls[i], Replay(calls[..i])).Committed?
  }

  // ----- the invariant -----

  ghost predicate RunningSound(w: World, call: Call, pc: Pc, effects: seq<Effect>) {
    var view := View(w, effects);
    && Refusal(call.intent).None?
    && PcSound(call, pc, view)
    && (!pc.Failed? ==> Adds(call, pc, w.db.log, view))
    && Completion(call, pc, view) == Atomic(call, w.db)
  }

  predicate AllLogged(ops: seq<Op>, log: seq<Op>) {
    forall i :: 0 <= i < |ops| ==> ops[i] in log
  }

  ghost predicate AnswerSound(w: World, call: Call, answer: Answer) {
    match answer
    case Accepted(ops) => CallAdds(call, ops) && AllLogged(ops, w.db.log)
    case Replayed(op) => op in w.db.log && op.clientOp == call.clientOp && op.clientOp.Some?
    case Refused(e) => e.VersionConflict? ==> Expected(call.intent).Some?
    case Aborted => true
    case Lost => true
  }

  ghost predicate TxSound(w: World, t: TxId, tx: Tx) {
    match tx.phase
    case Waiting => Refusal(tx.call.intent).None?
    case Running(pc, effects) => w.holder == Some(t) && RunningSound(w, tx.call, pc, effects)
    case Rechecking => true
    case Publishing(ops) => CallAdds(tx.call, ops) && AllLogged(ops, w.db.log)
    case Answered(answer) => AnswerSound(w, tx.call, answer)
  }

  /** Which client ids have been committed: a call with one has left its first operation in the log, once. */
  ghost predicate ClientIdsMatch(w: World) {
    && (forall i :: 0 <= i < |w.history| && w.history[i].clientOp.Some? ==>
          exists k :: 0 <= k < |w.db.log| && w.db.log[k].clientOp == w.history[i].clientOp)
    && (forall i, j :: 0 <= i < j < |w.history| && w.history[i].clientOp.Some? ==>
          w.history[i].clientOp != w.history[j].clientOp)
  }

  /** What the committed state owes to the committed calls alone. */
  ghost predicate CommittedSound(w: World) {
    && Consistent(w.db)
    && w.db == Replay(w.history) && AllCommit(w.history)
    && AllLogged(w.published, w.db.log)
    && ClientIdsMatch(w)
  }

  ghost predicate TxsSound(w: World) {
    && (w.holder.Some? ==> w.holder.value in w.txs && w.txs[w.holder.value].phase.Running?)
    && (forall t :: t in w.txs ==> TxSound(w, t, w.txs[t]))
  }

  ghost predicate Inv(w: World) {
    CommittedSound(w) && TxsSound(w)
  }

  // ----- each action keeps it -----

  lemma {:induction false} FoundIsThere(log: seq<Op>, id: ID)
    ensures var r := FindByClientOp(log, id); r.Some? ==> r.value in log && r.value.clientOp == Some(id)
  {
    if log != [] {
      FoundIsThere(log[..|log| - 1], id);
    }
  }

  lemma AffectAppend(db: Db, effects: seq<Effect>, more: seq<Effect>)
    requires |more| <= 1
    ensures AffectAll(db, effects + more) == AffectAll(AffectAll(db, effects), more)
  {
    if more == [] {
      assert effects + more == effects;
    } else {
      var all := effects + more;
      assert all[..|all| - 1] == effects;
      OneEffect(AffectAll(db, effects), more[0]);
      assert more == [more[0]];
    }
  }

  lemma StatementSound(w: World, call: Call, pc: Pc, effects: seq<Effect>)
    requires RunningSound(w, call, pc, effects) && !pc.Finished? && !pc.Failed?
    ensures var s := Next(call, pc, View(w, effects)); RunningSound(w, call, s.pc, effects + s.effects)
  {
    var view := View(w, effects);
    var s := Next(call, pc, view);
    LeftDecreases(call, pc, view);
    NextKeeps(call, pc, view);
    AffectAppend(w.db, effects, s.effects);
    if !s.pc.Failed? {
      NextAdds(call, pc, w.db.log, view);
    }
  }

  /** Only t has moved, and the database has not. */
  predicate OnlyMoves(w: World, w': World, t: TxId) {
    w'.db == w.db && t in w'.txs && w'.txs == w.txs[t := w'.txs[t]]
  }

  lemma OthersUnmoved(w: World, w': World, t: TxId)
    requires TxsSound(w) && OnlyMoves(w, w', t)
    requires w'.holder == w.holder || w.holder == Some(t) || w.holder.None?
    requires w'.holder.Some? ==> w'.holder == Some(t) || w'.holder == w.holder
    ensures forall u :: u in w'.txs && u != t ==> TxSound(w', u, w'.txs[u])
  {
    forall u | u in w'.txs && u != t ensures TxSound(w', u, w'.txs[u]) {
      assert TxSound(w, u, w.txs[u]);
      if w.txs[u].phase.Running? {
        SameDatabase(w, w', w.txs[u].call, w.txs[u].phase.pc, w.txs[u].phase.effects);
      }
    }
  }

  lemma StatementKeeps(w: World, t: TxId)
    requires TxsSound(w) && AtStatement(w, t)
    ensures TxsSound(Stepped(w, t))
  {
    assert TxSound(w, t, w.txs[t]);
    StatementSound(w, w.txs[t].call, w.txs[t].phase.pc, w.txs[t].phase.effects);
    var w' := Stepped(w, t);
    SameDatabase(w, w', w'.txs[t].call, w'.txs[t].phase.pc, w'.txs[t].phase.effects);
    OthersUnmoved(w, w', t);
  }

  lemma SameDatabase(w: World, w': World, call: Call, pc: Pc, effects: seq<Effect>)
    requires w'.db == w.db
    ensures RunningSound(w', call, pc, effects) == RunningSound(w, call, pc, effects)
  {
  }

  lemma JustLocked(w: World, call: Call)
    requires Consistent(w.db) && Refusal(call.intent).None?
    ensures RunningSound(w, call, Reading, [])
  {
    assert View(w, []) == w.db;
    assert w.db.log[|w.db.log|..] == [];
  }

  lemma LockKeeps(w: World, t: TxId, w': World)
    requires TxsSound(w) && Consistent(w.db) && t in w.txs && w.txs[t].phase.Waiting? && w.holder.None?
    requires w' == w.(holder := Some(t), txs := To(w, t, Running(Reading, [])))
    ensures TxsSound(w')
  {
    assert TxSound(w, t, w.txs[t]);
    JustLocked(w', w.txs[t].call);
    OthersUnmoved(w, w', t);
  }

  /** The log of a commit is the log before it and the call's operations. */
  lemma CommitExtends(w: World, t: TxId)
    requires TxsSound(w) && AtCommit(w, t)
    ensures var tx := w.txs[t]; var after := View(w, tx.phase.effects);
      && w.db.log <= after.log && CallAdds(tx.call, after.log[|w.db.log|..])
      && Consistent(after) && Atomic(tx.call, w.db) == Committed(after)
      && w.holder == Some(t)
  {
    assert TxSound(w, t, w.txs[t]);
  }

  lemma {:induction false} HistoryExtends(w: World, call: Call, after: Db)
    requires w.db == Replay(w.history) && AllCommit(w.history) && Atomic(call, w.db) == Committed(after)
    ensures Replay(w.history + [call]) == after && AllCommit(w.history + [call])
  {
    var all := w.history + [call];
    assert all[..|w.history|] == w.history;
    forall i | 0 <= i < |all| ensures Atomic(all[i], Replay(all[..i])).Committed? {
      if i < |w.history| {
        assert all[..i] == w.history[..i];
      }
    }
  }

  lemma ClientIdsExtend(w: World, call: Call, log: seq<Op>)
    requires ClientIdsMatch(w) && w.db.log <= log && CallAdds(call, log[|w.db.log|..]) && ClientOpsUnique(log)
    ensures forall i :: 0 <= i < |w.history + [call]| && (w.history + [call])[i].clientOp.Some? ==>
      exists k :: 0 <= k < |log| && log[k].clientOp == (w.history + [call])[i].clientOp
    ensures forall i, j :: 0 <= i < j < |w.history + [call]| && (w.history + [call])[i].clientOp.Some? ==>
      (w.history + [call])[i].clientOp != (w.history + [call])[j].clientOp
  {
  }

  lemma LoggedStays(ops: seq<Op>, log: seq<Op>, longer: seq<Op>)
    requires AllLogged(ops, log) && log <= longer
    ensures AllLogged(ops, longer)
  {
  }

  /** A commit leaves every other call's standing sound: no other transaction is running. */
  lemma OthersOutlive(w: World, w': World, t: TxId, u: TxId, tx: Tx)
    requires TxSound(w, u, tx) && u != t && w.holder == Some(t) && w.db.log <= w'.db.log
    ensures TxSound(w', u, tx)
  {
    match tx.phase
    case Publishing(ops) => LoggedStays(ops, w.db.log, w'.db.log);
    case Answered(answer) =>
      if answer.Accepted? {
        LoggedStays(answer.ops, w.db.log, w'.db.log);
      } else if answer.Replayed? {
        var k :| 0 <= k < |w.db.log| && w.db.log[k] == answer.op;
        assert w'.db.log[k] == answer.op;
      }
    case _ =>
  }

  /** Everything but the database and its history, after a commit. */
  lemma CommittedTxs(w: World, t: TxId, after: Db, w': World)
    requires TxsSound(w) && t in w.txs && w.holder == Some(t)
    requires w.db.log <= after.log && CallAdds(w.txs[t].call, after.log[|w.db.log|..])
    requires w'.db == after && w'.holder == None
    requires w'.txs == w.txs[t := w.txs[t].(phase := Publishing(after.log[|w.db.log|..]))]
    ensures TxsSound(w')
  {
    forall u | u in w'.txs ensures TxSound(w', u, w'.txs[u]) {
      if u != t {
        OthersOutlive(w, w', t, u, w.txs[u]);
      }
    }
  }

  lemma {:induction false} CommitKeeps(w: World, t: TxId)
    requires Inv(w) && AtCommit(w, t)
    ensures Inv(CommittedWorld(w, t))
  {
    var call, after, w' := w.txs[t].call, View(w, w.txs[t].phase.effects), CommittedWorld(w, t);
    CommitExtends(w, t);
    CommittedTxs(w, t, after, w');
    HistoryExtends(w, call, after);
    ClientIdsExtend(w, call, after.log);
    LoggedStays(w.published, w.db.log, after.log);
  }

  /** The actions that leave the database alone and no transaction running that was not. */
  lemma BystandersKeep(w: World, w': World, t: TxId)
    requires TxsSound(w) && OnlyMoves(w, w', t) && w'.holder == Released(w, t)
    requires !w'.txs[t].phase.Running? && TxSound(w', t, w'.txs[t])
    ensures TxsSound(w')
  {
    OthersUnmoved(w, w', t);
  }

  lemma ArriveSound(w: World, t: TxId, call: Call)
    ensures TxSound(w, t, Tx(call, Arrive(call, w.db.log)))
  {
    if call.clientOp.Some? {
      FoundIsThere(w.db.log, call.clientOp.value);
    }
  }

  lemma RecheckSound(w: World, t: TxId, call: Call)
    ensures TxSound(w, t, Tx(call, AfterRecheck(call, w.db.log)))
  {
    if call.clientOp.Some? {
      FoundIsThere(w.db.log, call.clientOp.value);
    }
  }

  lemma SubmitKeeps(w: World, t: TxId, call: Call)
    requires TxsSound(w) && t !in w.txs
    ensures TxsSound(Take(w, Submit(t, call)))
  {
    var w' := Take(w, Submit(t, call));
    ArriveSound(w', t, call);
    BystandersKeep(w, w', t);
  }

  /** A write that is rolled back for its version has stated one. */
  lemma RollbackKeeps(w: World, t: TxId)
    requires TxsSound(w) && AtRollback(w, t)
    ensures TxsSound(Take(w, Rollback(t)))
  {
    var call, w' := w.txs[t].call, Take(w, Rollback(t));
    assert TxSound(w, t, w.txs[t]);
    VersionConflictExactly(call, w.db);
    assert TxSound(w', t, w'.txs[t]);
    BystandersKeep(w, w', t);
  }

  lemma RecheckKeeps(w: World, t: TxId)
    requires TxsSound(w) && t in w.txs && w.txs[t].phase.Rechecking?
    ensures TxsSound(Take(w, Recheck(t)))
  {
    var w' := Take(w, Recheck(t));
    RecheckSound(w', t, w.txs[t].call);
    BystandersKeep(w, w', t);
  }

  lemma BothLogged(xs: seq<Op>, ys: seq<Op>, log: seq<Op>)
    requires AllLogged(xs, log) && AllLogged(ys, log)
    ensures AllLogged(xs + ys, log)
  {
  }

  lemma PublishKeeps(w: World, t: TxId, w': World, ops: seq<Op>)
    requires TxsSound(w) && AllLogged(w.published, w.db.log) && t in w.txs && w.txs[t].phase == Publishing(ops)
    requires w' == w.(published := w.published + ops, txs := To(w, t, Answered(Accepted(ops))))
    ensures TxsSound(w') && AllLogged(w'.published, w.db.log)
  {
    assert TxSound(w, t, w.txs[t]);
    BothLogged(w.published, ops, w.db.log);
    assert TxSound(w', t, w'.txs[t]);
    assert w'.holder == Released(w, t);
    BystandersKeep(w, w', t);
  }

  lemma {:induction false} TakeKeeps(w: World, a: Action)
    requires Inv(w)
    ensures Inv(Take(w, a))
  {
    if Take(w, a) != w {
      match a
      case Submit(t, call) => SubmitKeeps(w, t, call);
      case Lock(t) => LockKeeps(w, t, Take(w, a));
      case Statement(t) => StatementKeeps(w, t);
      case Commit(t) => CommitKeeps(w, t);
      case Rollback(t) => RollbackKeeps(w, t);
      case Recheck(t) => RecheckKeeps(w, t);
      case Publish(t) => PublishKeeps(w, t, Take(w, a), w.txs[t].phase.ops);
      case Abort(t) => BystandersKeep(w, Take(w, a), t);
      case Crash(t) => BystandersKeep(w, Take(w, a), t);
    }
  }

  // ----- theorems over every run -----

  lemma {:induction false} EveryRun(actions: seq<Action>)
    ensures Inv(Run(actions))
  {
    if actions == [] {
      EmptyIsConsistent();
    } else {
      EveryRun(actions[..|actions| - 1]);
      TakeKeeps(Run(actions[..|actions| - 1]), actions[|actions| - 1]);
    }
  }

  /** In every reachable state the log folds, and its fold is the database, tombstones and versions included, but for
      latitudes and nanoseconds; and it is the database exactly when no option's last latitude was logged together with
      another longitude and no deletion falls between two microseconds. */
  lemma FoldIsDatabase(actions: seq<Action>)
    ensures var db := Run(actions).db;
      && Fold(db.log).Ok? && Agree(Fold(db.log).value, db.rows)
      && (Fold(db.log) == Ok(db.rows) <==> Faithful(db.log))
  {
    EveryRun(actions);
    FoldAgrees(Run(actions).db);
    FoldIsRowsExactly(Run(actions).db);
  }

  lemma {:induction false} HarmlessReplay(calls: seq<Call>)
    requires AllCommit(calls) && forall i :: 0 <= i < |calls| ==> Harmless(calls[i])
    ensures Consistent(Replay(calls)) && Faithful(Replay(calls).log)
  {
    if calls == [] {
      EmptyIsConsistent();
    } else {
      var n := |calls| - 1;
      FrontCommits(calls, n);
      HarmlessReplay(calls[..n]);
      LastReplayed(calls);
      HarmlessCall(calls[n], Replay(calls[..n]));
    }
  }

  lemma {:induction false} FrontCommits(calls: seq<Call>, n: nat)
    requires AllCommit(calls) && n <= |calls|
    ensures AllCommit(calls[..n])
  {
    forall i | 0 <= i < n ensures Atomic(calls[..n][i], Replay(calls[..n][..i])).Committed? {
      assert calls[..n][..i] == calls[..i];
    }
  }

  lemma {:induction false} LastReplayed(calls: seq<Call>)
    requires AllCommit(calls) && calls != []
    ensures var last := Atomic(calls[|calls| - 1], Replay(calls[..|calls| - 1]));
      last.Committed? && Replay(calls) == last.db
  {
  }

  lemma HarmlessCall(call: Call, db: Db)
    requires Consistent(db) && Faithful(db.log) && Atomic(call, db).Committed? && Harmless(call)
    ensures Consistent(Atomic(call, db).db) && Faithful(Atomic(call, db).db.log)
  {
    CommittedKeepsConsistent(call, db);
    CommitKeepsFaithful(call, db);
  }

  lemma {:induction false} ReplayConsistent(calls: seq<Call>)
    requires AllCommit(calls)
    ensures Consistent(Replay(calls))
  {
    if calls == [] {
      EmptyIsConsistent();
    } else {
      var n := |calls| - 1;
      FrontCommits(calls, n);
      ReplayConsistent(calls[..n]);
      LastReplayed(calls);
      CommittedKeepsConsistent(calls[n], Replay(calls[..n]));
    }
  }

  /** While every committed call is harmless, which its caller can see, the fold of the log is the database. */
  lemma HarmlessRunsFold(actions: seq<Action>)
    requires forall i :: 0 <= i < |Run(actions).history| ==> Harmless(Run(actions).history[i])
    ensures var db := Run(actions).db; Fold(db.log) == Ok(db.rows)
  {
    EveryRun(actions);
    HarmlessReplay(Run(actions).history);
    FoldIsRowsExactly(Run(actions).db);
  }

  /** In every reachable state, whatever transactions are open, the committed log is numbered 1..op_seq without a gap,
      and everything published is in it. */
  lemma VisibleLogIsGapless(actions: seq<Action>)
    ensures var w := Run(actions); Gapless(w.db) && AllLogged(w.published, w.db.log)
  {
    EveryRun(actions);
  }

  lemma {:induction false} LogGrows(w: World, a: Action)
    requires Inv(w)
    ensures w.db.log <= Take(w, a).db.log
  {
    if a.Commit? && AtCommit(w, a.t) {
      CommitExtends(w, a.t);
    }
  }

  lemma LogGrowsAfter(actions: seq<Action>, a: Action)
    ensures Run(actions).db.log <= Run(actions + [a]).db.log
  {
    assert (actions + [a])[..|actions|] == actions;
    EveryRun(actions);
    LogGrows(Run(actions), a);
  }

  /** A log read earlier is a prefix of one read later. */
  lemma {:induction false} ReadsSeePrefixes(actions: seq<Action>, more: seq<Action>)
    ensures Run(actions).db.log <= Run(actions + more).db.log
  {
    if more == [] {
      assert actions + more == actions;
    } else {
      var n := |more| - 1;
      ReadsSeePrefixes(actions, more[..n]);
      LogGrowsAfter(actions + more[..n], more[n]);
      assert actions + more == (actions + more[..n]) + [more[n]];
    }
  }

  /** Every interleaving refines the committed calls run one after another, in commit order. */
  lemma {:induction false} RefinesSerial(actions: seq<Action>)
    ensures var w := Run(actions); w.db == Replay(w.history) && AllCommit(w.history)
  {
    EveryRun(actions);
  }

  /** At most one transaction has read anything it may act on: the one that holds the lock. */
  lemma OnlyTheHolderRuns(actions: seq<Action>, t: TxId, u: TxId)
    requires t in Run(actions).txs && Run(actions).txs[t].phase.Running?
    requires u in Run(actions).txs && Run(actions).txs[u].phase.Running?
    ensures t == u
  {
    EveryRun(actions);
    assert TxSound(Run(actions), t, Run(actions).txs[t]) && TxSound(Run(actions), u, Run(actions).txs[u]);
  }

  /** In no interleaving does a write that states no version fail for one; what its caller may still see under that name is
      a transaction the database gave up. */
  lemma VersionlessNeverConflicts(actions: seq<Action>, t: TxId)
    requires t in Run(actions).txs && Expected(Run(actions).txs[t].call.intent).None?
    ensures var phase := Run(actions).txs[t].phase;
      && (phase.Running? ==> phase.pc != Failed(VersionConflict))
      && (phase.Answered? ==> phase.answer != Refused(VersionConflict))
  {
    EveryRun(actions);
    var w := Run(actions);
    assert TxSound(w, t, w.txs[t]);
    VersionConflictExactly(w.txs[t].call, w.db);
  }

  // ----- every serial history is a run -----

  ghost function TakeAll(w: World, actions: seq<Action>): World {
    if actions == [] then w else Take(TakeAll(w, actions[..|actions| - 1]), actions[|actions| - 1])
  }

  lemma {:induction false} TakeOn(w: World, actions: seq<Action>, a: Action)
    ensures TakeAll(w, actions + [a]) == Take(TakeAll(w, actions), a)
  {
    assert (actions + [a])[..|actions|] == actions;
  }

  lemma {:induction false} TakeFirst(w: World, a: Action, rest: seq<Action>)
    ensures TakeAll(w, [a] + rest) == TakeAll(Take(w, a), rest)
  {
    if rest == [] {
      assert [a] + rest == [a] && [a][..0] == [];
    } else {
      var n := |rest| - 1;
      TakeFirst(w, a, rest[..n]);
      assert ([a] + rest)[..n + 1] == [a] + rest[..n];
    }
  }

  lemma {:induction false} RunThenTake(actions: seq<Action>, more: seq<Action>)
    ensures Run(actions + more) == TakeAll(Run(actions), more)
  {
    if more == [] {
      assert actions + more == actions;
    } else {
      var n := |more| - 1;
      RunThenTake(actions, more[..n]);
      assert actions + more == (actions + more[..n]) + [more[n]] && more == more[..n] + [more[n]];
      RunOn(actions + more[..n], more[n]);
      TakeOn(Run(actions), more[..n], more[n]);
    }
  }

  lemma {:induction false} RunOn(actions: seq<Action>, a: Action)
    ensures Run(actions + [a]) == Take(Run(actions), a)
  {
    assert (actions + [a])[..|actions|] == actions;
  }

  /** Only t has moved, to where its statements are done and its transaction sees the given database. */
  ghost predicate DoneWith(w: World, w': World, t: TxId, after: Db) {
    && t in w.txs && OnlyMoves(w, w', t) && w'.holder == w.holder && w'.history == w.history && w'.published == w.published
    && w'.txs[t].call == w.txs[t].call && AtCommit(w', t) && View(w', w'.txs[t].phase.effects) == after
  }

  /** One statement of a transaction: it is nearer its end, which is the same. */
  lemma StatementOnce(w: World, t: TxId, pc: Pc, effects: seq<Effect>)
    requires t in w.txs && w.txs[t].phase == Running(pc, effects) && !pc.Finished? && !pc.Failed?
    ensures var w1, s := Take(w, Statement(t)), Next(w.txs[t].call, pc, View(w, effects));
      && w1 == w.(txs := To(w, t, Running(s.pc, effects + s.effects))) && Left(s.pc) < Left(pc)
      && Completion(w.txs[t].call, s.pc, View(w1, effects + s.effects)) == Completion(w.txs[t].call, pc, View(w, effects))
  {
    var call, view := w.txs[t].call, View(w, effects);
    CompletionStep(call, pc, view);
    LeftDecreases(call, pc, view);
    AffectAppend(w.db, effects, Next(call, pc, view).effects);
  }

  lemma DoneFromThere(w: World, w1: World, w': World, t: TxId, phase: Phase, after: Db)
    requires t in w.txs && w1 == w.(txs := To(w, t, phase)) && DoneWith(w1, w', t, after)
    ensures DoneWith(w, w', t, after)
  {
  }

  /** The statements of a transaction, one after another with nobody in between. */
  lemma {:induction false} StatementsRun(w: World, t: TxId, pc: Pc, effects: seq<Effect>, after: Db) returns (actions: seq<Action>)
    requires t in w.txs && w.txs[t].phase == Running(pc, effects)
    requires Completion(w.txs[t].call, pc, View(w, effects)) == Committed(after)
    ensures DoneWith(w, TakeAll(w, actions), t, after)
    decreases Left(pc)
  {
    actions := [];
    if !pc.Finished? {
      StatementOnce(w, t, pc, effects);
      var w1, s := Take(w, Statement(t)), Next(w.txs[t].call, pc, View(w, effects));
      var rest := StatementsRun(w1, t, s.pc, effects + s.effects, after);
      DoneFromThere(w, w1, TakeAll(w1, rest), t, Running(s.pc, effects + s.effects), after);
      TakeFirst(w, Statement(t), rest);
      actions := [Statement(t)] + rest;
    }
  }

  /** Where a call stands that has just got the lock of a quiet world. */
  ghost predicate Begun(w: World, w': World, t: TxId, call: Call) {
    && w'.db == w.db && w'.history == w.history && w'.holder == Some(t)
    && w'.txs == w.txs[t := Tx(call, Running(Reading, []))]
  }

  lemma CallBegins(w: World, t: TxId, call: Call)
    requires Consistent(w.db) && w.holder.None? && t !in w.txs && Atomic(call, w.db).Committed?
    ensures var w2 := Take(Take(w, Submit(t, call)), Lock(t));
      Begun(w, w2, t, call) && View(w2, []) == w.db && Completion(call, Reading, View(w2, [])) == Atomic(call, w.db)
  {
    CommittedIsFresh(call, w.db);
    var w1 := Take(w, Submit(t, call));
    assert w1.txs[t] == Tx(call, Waiting);
  }

  lemma CallEnds(w: World, w2: World, w3: World, t: TxId, call: Call)
    requires Begun(w, w2, t, call) && Atomic(call, w.db).Committed? && DoneWith(w2, w3, t, Atomic(call, w.db).db)
    ensures var w' := Take(w3, Commit(t));
      && w'.db == Atomic(call, w.db).db && w'.holder.None? && w'.history == w.history + [call] && w'.txs.Keys == w.txs.Keys + {t}
  {
    assert w3.txs[t].call == call && w3.holder == Some(t);
  }

  /** A call that would commit alone is submitted, locks, runs and commits. */
  lemma {:induction false} CallRuns(w: World, t: TxId, call: Call) returns (actions: seq<Action>)
    requires Inv(w) && w.holder.None? && t !in w.txs && Atomic(call, w.db).Committed?
    ensures var w' := TakeAll(w, actions);
      && w'.db == Atomic(call, w.db).db && w'.holder.None? && w'.history == w.history + [call] && w'.txs.Keys == w.txs.Keys + {t}
  {
    CallBegins(w, t, call);
    var w1 := Take(w, Submit(t, call));
    var w2 := Take(w1, Lock(t));
    var statements := StatementsRun(w2, t, Reading, [], Atomic(call, w.db).db);
    CallEnds(w, w2, TakeAll(w2, statements), t, call);
    TakeOn(w2, statements, Commit(t));
    TakeFirst(w1, Lock(t), statements + [Commit(t)]);
    TakeFirst(w, Submit(t, call), [Lock(t)] + (statements + [Commit(t)]));
    actions := [Submit(t, call)] + ([Lock(t)] + (statements + [Commit(t)]));
  }

  /** A call that commits has no operation in the log yet. */
  lemma CommittedIsFresh(call: Call, db: Db)
    requires Consistent(db) && Atomic(call, db).Committed?
    ensures Found(call, db.log).None? && Refusal(call.intent).None?
  {
    CommittedKeepsConsistent(call, db);
    NotFoundBefore(call, db.log, Atomic(call, db).db.log);
  }

  lemma NotFoundBefore(call: Call, log: seq<Op>, longer: seq<Op>)
    requires log <= longer && |log| < |longer| && longer[|log|].clientOp == call.clientOp && ClientOpsUnique(longer)
    ensures Found(call, log).None?
  {
    if call.clientOp.Some? {
      forall i | 0 <= i < |log| ensures log[i].clientOp != call.clientOp {
        assert log[i] == longer[i];
      }
      NeverFound(log, call.clientOp.value);
    }
  }

  lemma {:induction false} NeverFound(log: seq<Op>, id: ID)
    requires forall i :: 0 <= i < |log| ==> log[i].clientOp != Some(id)
    ensures FindByClientOp(log, id).None?
  {
    if log != [] {
      NeverFound(log[..|log| - 1], id);
    }
  }

  lemma {:induction false} CommitsNext(calls: seq<Call>, call: Call)
    requires AllCommit(calls) && Atomic(call, Replay(calls)).Committed?
    ensures AllCommit(calls + [call]) && Replay(calls + [call]) == Atomic(call, Replay(calls)).db
  {
    var all := calls + [call];
    assert all[..|calls|] == calls;
    forall i | 0 <= i < |all| ensures Atomic(all[i], Replay(all[..i])).Committed? {
      if i < |calls| {
        assert all[..i] == calls[..i];
      }
    }
  }

  /** A run that has had exactly these calls, and is quiet. */
  ghost predicate Served(w: World, calls: seq<Call>) {
    && w.db == Replay(calls) && w.history == calls && w.holder.None?
    && forall t :: t in w.txs ==> t < |calls|
  }

  /** Every list of calls that commit one after another is the history of some run: the machine reaches every database a
      serial execution reaches. */
  lemma {:induction false} SerialRuns(calls: seq<Call>) returns (actions: seq<Action>)
    requires AllCommit(calls)
    ensures Served(Run(actions), calls)
  {
    if calls == [] {
      actions := [];
    } else {
      var n := |calls| - 1;
      FrontCommits(calls, n);
      var before := SerialRuns(calls[..n]);
      LastReplayed(calls);
      actions := ServedNext(before, calls);
    }
  }

  lemma {:induction false} ServedNext(before: seq<Action>, calls: seq<Call>) returns (actions: seq<Action>)
    requires calls != [] && Served(Run(before), calls[..|calls| - 1])
    requires var last := Atomic(calls[|calls| - 1], Replay(calls[..|calls| - 1])); last.Committed? && Replay(calls) == last.db
    ensures Served(Run(actions), calls)
  {
    var n := |calls| - 1;
    EveryRun(before);
    var more := CallRuns(Run(before), n, calls[n]);
    RunThenTake(before, more);
    actions := before + more;
    OneMoreServed(Run(before), Run(actions), calls);
  }

  lemma {:induction false} OneMoreServed(w: World, w': World, calls: seq<Call>)
    requires calls != [] && Served(w, calls[..|calls| - 1])
    requires w'.db == Replay(calls) && w'.holder.None?
    requires w'.history == w.history + [calls[|calls| - 1]] && w'.txs.Keys == w.txs.Keys + {|calls| - 1}
    ensures Served(w', calls)
  {
    assert calls == calls[..|calls| - 1] + [calls[|calls| - 1]];
    forall t | t in w'.txs ensures t < |calls| {
      assert t in w'.txs.Keys;
    }
  }

  // ----- submitting the same operation again -----

  /** Of all the calls that share a client operation id at most one is ever committed, and one operation in the log
      carries the id: the first of that call. */
  lemma AtMostOnce(actions: seq<Action>, id: ID)
    ensures var w := Run(actions);
      && (forall i, j :: 0 <= i < j < |w.history| && w.history[i].clientOp == Some(id) ==> w.history[j].clientOp != Some(id))
      && (forall i, j :: 0 <= i < j < |w.db.log| && w.db.log[i].clientOp == Some(id) ==> w.db.log[j].clientOp != Some(id))
  {
    EveryRun(actions);
  }

  lemma {:induction false} FindFinds(log: seq<Op>, id: ID)
    requires exists k :: 0 <= k < |log| && log[k].clientOp == Some(id)
    ensures FindByClientOp(log, id).Some?
  {
    var k :| 0 <= k < |log| && log[k].clientOp == Some(id);
    if log[|log| - 1].clientOp != Some(id) {
      assert log[..|log| - 1][k].clientOp == Some(id);
      FindFinds(log[..|log| - 1], id);
    }
  }

  /** A submit whose id is in the log is answered with the operation that carries it, and changes nothing else; and so is
      one that only lost the race for it. */
  lemma ResubmitChangesNothing(actions: seq<Action>, t: TxId, call: Call)
    requires call.clientOp.Some?
    requires exists k :: 0 <= k < |Run(actions).db.log| && Run(actions).db.log[k].clientOp == call.clientOp
    ensures var w, w' := Run(actions), Take(Run(actions), Submit(t, call));
      t !in w.txs ==>
        && w' == w.(txs := w.txs[t := w'.txs[t]])
        && w'.txs[t].phase.Answered? && w'.txs[t].phase.answer.Replayed?
        && w'.txs[t].phase.answer.op in w.db.log && w'.txs[t].phase.answer.op.clientOp == call.clientOp
    ensures var w, w' := Run(actions), Take(Run(actions), Recheck(t));
      t in w.txs && w.txs[t] == Tx(call, Rechecking) ==>
        && w' == w.(txs := w.txs[t := w'.txs[t]])
        && w'.txs[t].phase.Answered? && w'.txs[t].phase.answer.Replayed?
        && w'.txs[t].phase.answer.op in w.db.log && w'.txs[t].phase.answer.op.clientOp == call.clientOp
  {
    FindFinds(Run(actions).db.log, call.clientOp.value);
    FoundIsThere(Run(actions).db.log, call.clientOp.value);
  }

  // ----- why the lock comes before the reads -----

  /** Had b read before a's edit of the same row was committed, and written after it, b would be refused for a version it
      never stated. */
  lemma ReadingBeforeTheLockLosesTheEdit(a: Call, b: Call, db: Db)
    requires Consistent(db) && IsEdit(a.intent) && Atomic(a, db).Committed?
    requires b.intent.EditSlot? || b.intent.EditOption?
    requires Refusal(b.intent).None? && Expected(b.intent).None? && b.fieldsValid
    requires TargetTable(a.intent) == TargetTable(b.intent) && a.intent.id == b.intent.id
    ensures Plan(b, db).Ok?
    ensures Execute(Plan(b, db).value.stmt, b.fieldsValid, Atomic(a, db).db) == Err(VersionConflict)
    ensures FreshClientOp(b, Atomic(a, db).db.log) ==> Atomic(b, Atomic(a, db).db).Committed?
  {
    var after := Atomic(a, db).db;
    CommittedKeepsConsistent(a, db);
    EditStaysLive(a, db);
    StaleStatement(b, db, after);
    ContentEditCommitsExactly(b, after);
  }

  lemma StaleStatement(b: Call, db: Db, after: Db)
    requires b.intent.EditSlot? || b.intent.EditOption?
    requires Expected(b.intent).None? && Live(db, TargetTable(b.intent), b.intent.id).Ok?
    requires VersionAt(after.rows, TargetTable(b.intent), b.intent.id) == VersionAt(db.rows, TargetTable(b.intent), b.intent.id) + 1
    ensures Plan(b, db).Ok?
    ensures Execute(Plan(b, db).value.stmt, b.fieldsValid, after) == Err(VersionConflict)
  {
  }

  lemma LiveByColumn(r: Db, e: Entity, id: ID)
    requires Lookup(r.rows, e, id).Some? && !e.VoteEntity?
    ensures Live(r, e, id).Ok? <==> Column(Lookup(r.rows, e, id).value, DeletedAt) == Some(Stamp(None))
  {
  }

  lemma EditStaysLive(a: Call, db: Db)
    requires Consistent(db) && IsEdit(a.intent) && Atomic(a, db).Committed?
    ensures var e, id := TargetTable(a.intent), a.intent.id;
      && Live(db, e, id).Ok? && Live(Atomic(a, db).db, e, id).Ok?
      && VersionAt(Atomic(a, db).db.rows, e, id) == VersionAt(db.rows, e, id) + 1
  {
    EditAssigns(a, db);
    EditFoundLive(a, db);
    LiveByColumn(db, TargetTable(a.intent), a.intent.id);
    LiveByColumn(Atomic(a, db).db, TargetTable(a.intent), a.intent.id);
  }

  lemma EditFoundLive(a: Call, db: Db)
    requires IsEdit(a.intent) && Atomic(a, db).Committed?
    ensures DeletedAt !in EditMask(a.intent) && Live(db, TargetTable(a.intent), a.intent.id).Ok?
  {
    AtomicUnfolds(a, db);
    EditPlans(a, db);
  }

  lemma EditPlans(a: Call, db: Db)
    requires IsEdit(a.intent)
    ensures Refusal(a.intent).None? ==> DeletedAt !in EditMask(a.intent)
    ensures Plan(a, db).Ok? ==> Live(db, TargetTable(a.intent), a.intent.id).Ok?
  {
  }
}
