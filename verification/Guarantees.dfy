/** What a reader of the log may rely on in every reachable state of the write machine. */
module Guarantees {
  import opened Outcomes
  import opened Domain
  import opened Folding
  import opened Tables
  import opened Ledger
  import opened Writes
  import opened Convergence
  import opened Transactions
  import opened WriteMachine

  // ----- the ledger, at every prefix -----

  /** The money of every folded entry adds up. */
  predicate MoneyBalances(r: Replica) {
    forall id :: id in r.budgets ==> SplitsValid(r.budgets[id].amount, r.budgets[id].splits)
  }

  predicate NoRepeats(order: seq<Field>) {
    forall i, j :: 0 <= i < j < |order| ==> order[i] != order[j]
  }

  /** Assigning a payload sets an entry's amount and splits from it exactly when it names them. */
  lemma {:induction false} MoneyAssigned(e: Budget, p: Payload, order: seq<Field>)
    requires NoRepeats(order) && AssignAll(AssignBudget, e, p, order).1
    ensures var e' := AssignAll(AssignBudget, e, p, order).0;
      && (if AmountMinor in order && AmountMinor in p then p[AmountMinor] == Number(e'.amount) else e'.amount == e.amount)
      && (if Splits in order && Splits in p then p[Splits] == SplitSet(e'.splits) else e'.splits == e.splits)
    decreases |order|
  {
    if order != [] {
      var f, tail := order[0], order[1..];
      assert f !in tail;
      MoneyAssigned(if f in p then AssignBudget(e, f, p[f]).value else e, p, tail);
    }
  }

  lemma BudgetPayloads(op: Op)
    requires OpWellFormed(op) && EntityOf(op.kind).BudgetEntity?
    ensures op.kind.BudgetSet? || (AmountMinor !in op.payload && Splits !in op.payload)
  {
  }

  lemma BudgetOrderCovers()
    ensures NoRepeats(BUDGET_ORDER) && AmountMinor in BUDGET_ORDER && Splits in BUDGET_ORDER
  {
  }

  lemma BudgetStep(e: Budget, op: Op, order: seq<Field>)
    requires NoRepeats(order) && AmountMinor in order && Splits in order
    requires OpWellFormed(op) && EntityOf(op.kind).BudgetEntity? && AssignAll(AssignBudget, e, Decoded(BudgetEntity, op.payload), order).1
    requires op.kind.BudgetSet? || SplitsValid(e.amount, e.splits)
    ensures var e' := AssignAll(AssignBudget, e, Decoded(BudgetEntity, op.payload), order).0; SplitsValid(e'.amount, e'.splits)
  {
    MoneyAssigned(e, Decoded(BudgetEntity, op.payload), order);
    BudgetPayloads(op);
  }

  lemma BudgetApplied(r: Replica, op: Op, order: seq<Field>)
    requires order == BUDGET_ORDER
    requires MoneyBalances(r) && OpWellFormed(op) && EntityOf(op.kind).BudgetEntity? && ApplyBudget(r, op).error.None?
    ensures MoneyBalances(ApplyBudget(r, op).replica)
  {
    var e := if op.entity in r.budgets then r.budgets[op.entity] else BlankBudget(op.actor);
    BudgetOrderCovers();
    BudgetStep(e, op, order);
    var e' := AssignAll(AssignBudget, e, Decoded(BudgetEntity, op.payload), order).0;
    assert ApplyBudget(r, op).replica.budgets == r.budgets[op.entity := e'.(version := op.version)];
  }

  lemma LedgerStep(r: Replica, op: Op)
    requires MoneyBalances(r) && OpWellFormed(op) && Apply(r, op).error.None?
    ensures MoneyBalances(Apply(r, op).replica)
  {
    if op.seqno == r.seqno + 1 {
      if EntityOf(op.kind).BudgetEntity? {
        BudgetApplied(r, op, BUDGET_ORDER);
      } else {
        assert Apply(r, op).replica.budgets == r.budgets;
      }
    }
  }

  lemma {:induction false} FoldBalances(log: seq<Op>)
    requires OpsWellFormed(log) && Fold(log).Ok?
    ensures MoneyBalances(Fold(log).value)
  {
    if log != [] {
      var front := log[..|log| - 1];
      PrefixFolds(log, |front|);
      FoldBalances(front);
      LedgerStep(Fold(front).value, log[|front|]);
    }
  }

  /** However far a client has read a reachable log, every ledger entry it has folded has either no splits or splits that
      are not negative, name distinct members, and sum exactly to the amount. */
  lemma LedgerNeverDrifts(actions: seq<Action>, n: nat)
    requires n <= |Run(actions).db.log|
    ensures Fold(Run(actions).db.log[..n]).Ok? && MoneyBalances(Fold(Run(actions).db.log[..n]).value)
  {
    EveryRun(actions);
    var log := Run(actions).db.log;
    PrefixFolds(log, n);
    FoldBalances(log[..n]);
  }

  // ----- versions, registers, ballots -----

  /** A stored version is the number of operations on its entity, the option-delete cascade included; and the k-th of
      them carries version k. */
  lemma {:induction false} VersionIsHistoryLength(actions: seq<Action>, e: Entity, id: ID)
    ensures var db := Run(actions).db;
      && VersionAt(db.rows, e, id) == History(db.log, e, id)
      && forall i :: 0 <= i < |db.log| && Names(db.log[i], e, id) ==> db.log[i].version == History(db.log[..i + 1], e, id)
  {
    EveryRun(actions);
  }

  predicate WritesTo(op: Op, e: Entity, id: ID, f: Field) {
    Names(op, e, id) && f in op.payload
  }

  /** The first k operations of a log are those up to the last to write a field. */
  predicate WrittenUpTo(log: seq<Op>, e: Entity, id: ID, f: Field, k: nat) {
    && k <= |log|
    && (k > 0 ==> WritesTo(log[k - 1], e, id, f))
    && forall i :: k <= i < |log| ==> !WritesTo(log[i], e, id, f)
  }

  lemma {:induction false} HighestNaming(log: seq<Op>, e: Entity, id: ID, f: Field, k: nat)
    requires WrittenUpTo(log, e, id, f, k)
    ensures LastNaming(log, e, id, f) == if k == 0 then None else Some(log[k - 1])
  {
    if k < |log| {
      var front := log[..|log| - 1];
      assert k > 0 ==> front[k - 1] == log[k - 1];
      HighestNaming(front, e, id, f, k);
    }
  }

  /** Of all the operations that name a field of an entity, in whatever company, the highest numbered supplies its value: to
      the table, which keeps of it what the column can, and to the fold, as decoded. A field never named is blank in both. */
  lemma LastWriterWins(actions: seq<Action>, e: Entity, id: ID, f: Field, k: nat)
    requires f in Columns(e) && WrittenUpTo(Run(actions).db.log, e, id, f, k)
    ensures var db := Run(actions).db;
      && Fold(db.log).Ok?
      && var stored, folded := Column(RowOrBlank(db.rows, e, id), f), Column(RowOrBlank(Fold(db.log).value, e, id), f);
         if k == 0 then stored == folded == Column(Blank(e, None), f)
         else stored == Some(Kept(f, db.log[k - 1].payload[f])) && folded == Some(Folded(db.log[k - 1])[f])
  {
    EveryRun(actions);
    var db := Run(actions).db;
    HighestNaming(db.log, e, id, f, k);
    assert Column(RowOrBlank(db.rows, e, id), f) == StoredRegister(db.log, e, id, f);
    assert Column(RowOrBlank(Fold(db.log).value, e, id), f) == FoldedRegister(db.log, e, id, f);
  }

  /** A member has at most one vote on a slot. */
  lemma OneVoteEach(actions: seq<Action>, v: ID, u: ID)
    requires var votes := Run(actions).db.rows.votes;
      v in votes && u in votes && votes[v].slotId == votes[u].slotId && votes[v].userId == votes[u].userId
    ensures v == u
  {
    EveryRun(actions);
  }
}
