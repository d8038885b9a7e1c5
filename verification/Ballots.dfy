/** Votes and ledger entries: what one committed call leaves, and what they hold after any run of the write machine
    (internal/service/vote.go over internal/repository/sqlcgen/votes.sql.go, internal/service/budget.go over
    internal/repository/budget.go). */
module Ballots {
  import opened Outcomes
  import opened Domain
  import opened Folding
  import opened Tables
  import opened Writes
  import opened Convergence
  import opened Transactions
  import opened Merging
  import opened Effects
  import opened Acceptance
  import S = Selections
  import X = Exactness
  import opened WriteMachine

  // ----- one vote -----

  /** A cast vote commits exactly when its slot is live, its choice is an option of that slot or none, its fields are valid, its
      client id is new, and, for a member's first vote there, its id is. */
  lemma VoteCommitsExactly(call: Call, db: Db)
    requires Consistent(db) && call.intent.CastVote?
    ensures Atomic(call, db).Committed? <==>
      && Live(db, SlotEntity, call.intent.slotId).Ok? && OptionOfSlot(db, call.intent.choice, call.intent.slotId)
      && call.fieldsValid && FreshClientOp(call, db.log)
      && (HasVoted(db, call.intent.slotId, call.actor) || call.intent.id !in db.rows.votes)
  {
    X.CommitsExactly(call, db);
    VotesExecute(call, db);
  }

  /** v is the member's one vote on the slot. */
  ghost predicate IsOnlyVote(votes: map<ID, Vote>, v: ID, slotId: ID, user: ID) {
    v in votes && IsVoteOf(votes[v], slotId, user)
    && forall u :: u in votes && IsVoteOf(votes[u], slotId, user) ==> u == v
  }

  /** What a cast vote leaves: the member has one vote on the slot, for the choice just made. Its id is the one it was first
      cast with, and nothing else changes. */
  ghost predicate VoteCast(call: Call, before: Replica, after: Replica, v: ID)
    requires call.intent.CastVote?
  {
    var slotId := call.intent.slotId;
    && IsOnlyVote(after.votes, v, slotId, call.actor) && after.votes[v].optionId == call.intent.choice
    && (if v in before.votes then IsOnlyVote(before.votes, v, slotId, call.actor)
                                  && after.votes[v].version == before.votes[v].version + 1
        else v == call.intent.id && after.votes[v].version == 1
             && forall u :: u in before.votes ==> !IsVoteOf(before.votes[u], slotId, call.actor))
    && after.votes == before.votes[v := after.votes[v]]
    && after.days == before.days && after.slots == before.slots && after.options == before.options
    && after.budgets == before.budgets
  }

  lemma TablesAlike(before: Replica, after: Replica, e: Entity)
    requires forall id :: Lookup(after, e, id) == Lookup(before, e, id)
    ensures e.DayEntity? ==> after.days == before.days
    ensures e.SlotEntity? ==> after.slots == before.slots
    ensures e.OptionEntity? ==> after.options == before.options
    ensures e.VoteEntity? ==> after.votes == before.votes
    ensures e.BudgetEntity? ==> after.budgets == before.budgets
  {
    match e
    case DayEntity =>
      assert forall id :: id in after.days ==> Lookup(after, DayEntity, id) == Lookup(before, DayEntity, id);
      assert forall id :: id in before.days ==> Lookup(after, DayEntity, id) == Lookup(before, DayEntity, id);
    case SlotEntity =>
      assert forall id :: id in after.slots ==> Lookup(after, SlotEntity, id) == Lookup(before, SlotEntity, id);
      assert forall id :: id in before.slots ==> Lookup(after, SlotEntity, id) == Lookup(before, SlotEntity, id);
    case OptionEntity =>
      assert forall id :: id in after.options ==> Lookup(after, OptionEntity, id) == Lookup(before, OptionEntity, id);
      assert forall id :: id in before.options ==> Lookup(after, OptionEntity, id) == Lookup(before, OptionEntity, id);
    case VoteEntity =>
      assert forall id :: id in after.votes ==> Lookup(after, VoteEntity, id) == Lookup(before, VoteEntity, id);
      assert forall id :: id in before.votes ==> Lookup(after, VoteEntity, id) == Lookup(before, VoteEntity, id);
    case BudgetEntity =>
      assert forall id :: id in after.budgets ==> Lookup(after, BudgetEntity, id) == Lookup(before, BudgetEntity, id);
      assert forall id :: id in before.budgets ==> Lookup(after, BudgetEntity, id) == Lookup(before, BudgetEntity, id);
  }

  lemma VotesExceptOne(before: Replica, after: Replica, v: ID)
    requires Lookup(after, VoteEntity, v).Some?
    requires forall e', id' :: e' != VoteEntity || id' != v ==> Lookup(after, e', id') == Lookup(before, e', id')
    ensures after.votes == before.votes[v := after.votes[v]]
    ensures after.days == before.days && after.slots == before.slots && after.options == before.options
    ensures after.budgets == before.budgets
  {
    TablesAlike(before, after, DayEntity);
    TablesAlike(before, after, SlotEntity);
    TablesAlike(before, after, OptionEntity);
    TablesAlike(before, after, BudgetEntity);
    var put := before.(votes := before.votes[v := after.votes[v]]);
    forall id ensures Lookup(after, VoteEntity, id) == Lookup(put, VoteEntity, id) {
      assert id != v ==> Lookup(after, VoteEntity, id) == Lookup(before, VoteEntity, id);
    }
    TablesAlike(put, after, VoteEntity);
  }

  /** A committed vote is cast as that says ... */
  lemma CommittedVote(call: Call, db: Db)
    requires Consistent(db) && call.intent.CastVote? && Atomic(call, db).Committed?
    ensures VoteCast(call, db.rows, Atomic(call, db).db.rows, TargetOf(call, db))
  {
    CommittedLeaves(call, db);
    CommittedKeepsConsistent(call, db);
    VotesExceptOne(db.rows, Atomic(call, db).db.rows, TargetOf(call, db));
    VoteIsOnly(call, db, Atomic(call, db).db, TargetOf(call, db));
  }

  /** ... and logged as one operation that carries the choice. */
  lemma CommittedVoteLogged(call: Call, db: Db)
    requires Consistent(db) && call.intent.CastVote? && Atomic(call, db).Committed?
    ensures var log := Atomic(call, db).db.log;
      && |log| == |db.log| + 1 && db.log <= log
      && var op := log[|db.log|];
         && op.kind == VoteSet && op.entity == TargetOf(call, db) && op.fields == {SlotID, UserID, OptionID} == op.payload.Keys
         && op.payload[OptionID] == Ref(call.intent.choice) && op.payload[UserID] == Ref(Some(call.actor))
         && op.payload[SlotID] == Ref(Some(call.intent.slotId))
  {
    CommittedVote(call, db);
    CommittedRecords(call, db);
    var v, after := TargetOf(call, db), Atomic(call, db).db;
    VoteLogged(call, after.log[|db.log|], |db.log| + 1, v, after.rows.votes[v]);
  }

  lemma VoteLogged(call: Call, op: Op, seqno: nat, v: ID, vote: Vote)
    requires call.intent.CastVote? && Records(call, op, seqno, v, VoteRow(vote))
    requires IsVoteOf(vote, call.intent.slotId, call.actor) && vote.optionId == call.intent.choice
    ensures op.kind == VoteSet && op.entity == v && op.fields == {SlotID, UserID, OptionID} == op.payload.Keys
    ensures op.payload[OptionID] == Ref(call.intent.choice) && op.payload[UserID] == Ref(Some(call.actor))
    ensures op.payload[SlotID] == Ref(Some(call.intent.slotId))
  {
    assert SlotID in NamedFields(call.intent) && UserID in NamedFields(call.intent) && OptionID in NamedFields(call.intent);
  }

  lemma OnlyByIndex(db: Db, v: ID, slotId: ID, user: ID)
    requires BallotsMatch(db) && v in db.rows.votes && IsVoteOf(db.rows.votes[v], slotId, user)
    ensures IsOnlyVote(db.rows.votes, v, slotId, user)
  {
  }

  lemma VoteIsOnly(call: Call, db: Db, after: Db, v: ID)
    requires BallotsMatch(db) && BallotsMatch(after) && call.intent.CastVote? && v == TargetOf(call, db)
    requires LeavesOnly(call, db.rows, after.rows, v)
    ensures var slotId := call.intent.slotId;
      && IsOnlyVote(after.rows.votes, v, slotId, call.actor) && after.rows.votes[v].optionId == call.intent.choice
      && (if v in db.rows.votes then IsOnlyVote(db.rows.votes, v, slotId, call.actor)
                                     && after.rows.votes[v].version == db.rows.votes[v].version + 1
          else v == call.intent.id && after.rows.votes[v].version == 1
               && forall u :: u in db.rows.votes ==> !IsVoteOf(db.rows.votes[u], slotId, call.actor))
  {
    OnlyByIndex(after, v, call.intent.slotId, call.actor);
    BallotFound(db, call.intent.slotId, call.actor);
    if v in db.rows.votes {
      OnlyByIndex(db, v, call.intent.slotId, call.actor);
    }
  }

  // ----- votes over a run -----

  /** The choice a member last made on a slot. */
  function LastCast(calls: seq<Call>, slotId: ID, user: ID): Option<Option<ID>> {
    if calls == [] then None
    else
      var last := calls[|calls| - 1];
      if last.intent.CastVote? && last.intent.slotId == slotId && last.actor == user then Some(last.intent.choice)
      else LastCast(calls[..|calls| - 1], slotId, user)
  }

  /** The member's vote shows the choice given, and without one there is no vote. */
  ghost predicate Shows(votes: map<ID, Vote>, slotId: ID, user: ID, cast: Option<Option<ID>>) {
    match cast
    case None => forall v :: v in votes ==> !IsVoteOf(votes[v], slotId, user)
    case Some(choice) => exists v :: IsOnlyVote(votes, v, slotId, user) && votes[v].optionId == choice
  }

  lemma VoteShows(call: Call, before: Replica, after: Replica, v: ID, slotId: ID, user: ID, cast: Option<Option<ID>>)
    requires call.intent.CastVote? && VoteCast(call, before, after, v) && Shows(before.votes, slotId, user, cast)
    ensures Shows(after.votes, slotId, user,
                  if call.intent.slotId == slotId && call.actor == user then Some(call.intent.choice) else cast)
  {
    if !(call.intent.slotId == slotId && call.actor == user) {
      if cast.Some? {
        var u :| IsOnlyVote(before.votes, u, slotId, user) && before.votes[u].optionId == cast.value;
        assert IsOnlyVote(after.votes, u, slotId, user);
      }
    }
  }

  lemma OthersLeaveVotes(call: Call, db: Db)
    requires Consistent(db) && !call.intent.CastVote? && Atomic(call, db).Committed?
    ensures Atomic(call, db).db.rows.votes == db.rows.votes
  {
    if call.intent.DeleteOption? {
      S.DeleteOptionExactly(call, db);
    } else {
      CommittedLeaves(call, db);
      TablesAlike(db.rows, Atomic(call, db).db.rows, VoteEntity);
    }
  }

  lemma CallShows(call: Call, db: Db, slotId: ID, user: ID, cast: Option<Option<ID>>)
    requires Consistent(db) && Atomic(call, db).Committed? && Shows(db.rows.votes, slotId, user, cast)
    ensures Shows(Atomic(call, db).db.rows.votes, slotId, user,
                  if call.intent.CastVote? && call.intent.slotId == slotId && call.actor == user then Some(call.intent.choice)
                  else cast)
  {
    if call.intent.CastVote? {
      CommittedVote(call, db);
      VoteShows(call, db.rows, Atomic(call, db).db.rows, TargetOf(call, db), slotId, user, cast);
    } else {
      OthersLeaveVotes(call, db);
    }
  }

  lemma {:induction false} ReplayShows(calls: seq<Call>, slotId: ID, user: ID)
    requires AllCommit(calls)
    ensures Shows(Replay(calls).rows.votes, slotId, user, LastCast(calls, slotId, user))
  {
    if calls != [] {
      var n := |calls| - 1;
      FrontCommits(calls, n);
      ReplayShows(calls[..n], slotId, user);
      ReplayConsistent(calls[..n]);
      LastReplayed(calls);
      CallShows(calls[n], Replay(calls[..n]), slotId, user, LastCast(calls[..n], slotId, user));
    }
  }

  /** In every reachable state a member's vote on a slot is the choice of the last vote it has committed there: one vote, or none
      if it has never voted. */
  lemma VoteIsLastCast(actions: seq<Action>, slotId: ID, user: ID)
    ensures var w := Run(actions); Shows(w.db.rows.votes, slotId, user, LastCast(w.history, slotId, user))
  {
    EveryRun(actions);
    ReplayShows(Run(actions).history, slotId, user);
  }

  // ----- the ledger over a run -----

  /** What an entry was last saved with. */
  function LastSaved(calls: seq<Call>, id: ID): Option<BudgetContent> {
    if calls == [] then None
    else
      var last := calls[|calls| - 1].intent;
      if (last.CreateBudget? || last.EditBudget?) && last.id == id then Some(last.entry)
      else LastSaved(calls[..|calls| - 1], id)
  }

  /** The entry holds what was saved, and without a save there is none. */
  predicate Keeps(budgets: map<ID, Budget>, id: ID, saved: Option<BudgetContent>) {
    if saved.Some? then id in budgets && HoldsEntry(budgets[id], saved.value) else id !in budgets
  }

  lemma OthersLeaveEntries(call: Call, db: Db)
    requires Consistent(db) && !TargetTable(call.intent).BudgetEntity? && Atomic(call, db).Committed?
    ensures Atomic(call, db).db.rows.budgets == db.rows.budgets
  {
    if call.intent.DeleteOption? {
      S.DeleteOptionExactly(call, db);
    } else {
      CommittedLeaves(call, db);
      TablesAlike(db.rows, Atomic(call, db).db.rows, BudgetEntity);
    }
  }

  lemma EntryKeeps(call: Call, before: Replica, after: Replica, id: ID, saved: Option<BudgetContent>)
    requires TargetTable(call.intent).BudgetEntity? && LeavesOnly(call, before, after, call.intent.id)
    requires Keeps(before.budgets, id, saved)
    ensures Keeps(after.budgets, id,
                  if !call.intent.DeleteBudget? && call.intent.id == id then Some(call.intent.entry) else saved)
  {
    if call.intent.id != id {
      assert Lookup(after, BudgetEntity, id) == Lookup(before, BudgetEntity, id);
    }
  }

  lemma CallKeeps(call: Call, db: Db, id: ID, saved: Option<BudgetContent>)
    requires Consistent(db) && Atomic(call, db).Committed? && Keeps(db.rows.budgets, id, saved)
    ensures Keeps(Atomic(call, db).db.rows.budgets, id,
                  if (call.intent.CreateBudget? || call.intent.EditBudget?) && call.intent.id == id
                  then Some(call.intent.entry) else saved)
  {
    if TargetTable(call.intent).BudgetEntity? {
      CommittedLeaves(call, db);
      EntryKeeps(call, db.rows, Atomic(call, db).db.rows, id, saved);
    } else {
      OthersLeaveEntries(call, db);
    }
  }

  lemma {:induction false} ReplayKeeps(calls: seq<Call>, id: ID)
    requires AllCommit(calls)
    ensures Keeps(Replay(calls).rows.budgets, id, LastSaved(calls, id))
  {
    if calls != [] {
      var n := |calls| - 1;
      FrontCommits(calls, n);
      ReplayKeeps(calls[..n], id);
      ReplayConsistent(calls[..n]);
      LastReplayed(calls);
      CallKeeps(calls[n], Replay(calls[..n]), id, LastSaved(calls[..n], id));
    }
  }

  /** In every reachable state a ledger entry, deleted or not, holds exactly what it was last saved with: every field, and the
      splits as a whole. */
  lemma EntryIsLastSaved(actions: seq<Action>, id: ID)
    ensures var w := Run(actions); Keeps(w.db.rows.budgets, id, LastSaved(w.history, id))
  {
    EveryRun(actions);
    ReplayKeeps(Run(actions).history, id);
  }
}
