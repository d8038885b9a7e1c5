/** Which option a slot has chosen: what holds of it in every reachable state, and which calls leave a slot on a deleted
    option (internal/service/slot.go SetSelectedOption, option.go Create and Delete). */
module Choices {
  import opened Outcomes
  import opened ByteOrder
  import opened FracIntegers
  import opened FracKeys
  import opened Domain
  import opened Folding
  import opened Tables
  import opened Placement
  import opened Writes
  import opened Convergence
  import opened Transactions
  import opened Merging
  import opened Selections
  import opened Exactness
  import opened WriteMachine
  import opened Buckets

  /** Every option a slot has selected exists and is a candidate of that slot. */
  ghost predicate Owned(r: Replica) {
    forall id :: id in r.slots && r.slots[id].selected.Some? ==>
      r.slots[id].selected.value in r.options && r.options[r.slots[id].selected.value].slotId == id
  }

  /** The slot is live and has selected an option that is deleted. */
  predicate ChoseBuried(r: Replica, id: ID) {
    && IsLive(r.slots, id) && r.slots[id].selected.Some?
    && r.slots[id].selected.value in r.options && r.options[r.slots[id].selected.value].deletedAt.Some?
  }

  /** No live slot selects a deleted option. */
  ghost predicate NoneBuried(r: Replica) {
    forall id :: !ChoseBuried(r, id)
  }

  // ----- what a written row does to either -----

  lemma WrittenSlot(call: Call, db: Db, plan: Planned, w: Written)
    requires TargetTable(call.intent) == SlotEntity
    requires Plan(call, db) == Ok(plan) && Execute(plan.stmt, call.fieldsValid, db) == Ok(w)
    ensures w.row.SlotRow? && w.id == call.intent.id
    ensures call.intent.SelectOption? ==>
      && OptionOfSlot(db, call.intent.selected, w.id) && w.row.slot.selected == call.intent.selected
      && w.row.slot.deletedAt.None?
    ensures !call.intent.SelectOption? ==>
      w.row.slot.selected == if w.id in db.rows.slots then db.rows.slots[w.id].selected else None
    ensures w.id in db.rows.slots ==> IsLive(db.rows.slots, w.id)
  {
  }

  lemma WrittenOption(call: Call, db: Db, plan: Planned, w: Written)
    requires call.intent.CreateOption? || call.intent.EditOption?
    requires Plan(call, db) == Ok(plan) && Execute(plan.stmt, call.fieldsValid, db) == Ok(w)
    ensures w.row.OptionRow? && w.row.option.deletedAt.None?
    ensures w.id in db.rows.options ==>
      db.rows.options[w.id].slotId == w.row.option.slotId && db.rows.options[w.id].deletedAt.None?
  {
  }

  lemma OwnedSlotPut(db: Db, id: ID, s: Slot)
    requires Owned(db.rows) && OptionOfSlot(db, s.selected, id)
    ensures Owned(Put(db.rows, id, SlotRow(s)))
  {
  }

  lemma OwnedOptionPut(r: Replica, id: ID, o: SlotOption)
    requires Owned(r) && (id in r.options ==> r.options[id].slotId == o.slotId)
    ensures Owned(Put(r, id, OptionRow(o)))
  {
  }

  /** A call other than an option's deletion: its row keeps every selection in its slot. */
  lemma WrittenKeepsOwned(call: Call, db: Db, plan: Planned, w: Written)
    requires Owned(db.rows) && !call.intent.DeleteOption?
    requires Plan(call, db) == Ok(plan) && Execute(plan.stmt, call.fieldsValid, db) == Ok(w)
    ensures Owned(Put(db.rows, w.id, w.row))
  {
    WrittenTable(call, db, plan, w);
    match TargetTable(call.intent)
    case SlotEntity =>
      WrittenSlot(call, db, plan, w);
      OwnedSlotPut(db, w.id, w.row.slot);
    case OptionEntity =>
      WrittenOption(call, db, plan, w);
      OwnedOptionPut(db.rows, w.id, w.row.option);
    case _ =>
  }

  lemma GoneKeepsOwned(before: Db, after: Db, id: ID, at: Time)
    requires Owned(before.rows) && id in before.rows.options && OptionGone(before, after, id, at)
    ensures Owned(after.rows)
  {
  }

  lemma SeqnoIsNoRow(r: Replica, n: nat)
    ensures Owned(r.(seqno := n)) == Owned(r) && NoneBuried(r.(seqno := n)) == NoneBuried(r)
  {
    forall id ensures ChoseBuried(r.(seqno := n), id) == ChoseBuried(r, id) {
    }
  }

  lemma CommitKeepsOwned(call: Call, db: Db)
    requires Consistent(db) && Owned(db.rows) && Atomic(call, db).Committed?
    ensures Owned(Atomic(call, db).db.rows)
  {
    if call.intent.DeleteOption? {
      DeleteOptionExactly(call, db);
      GoneKeepsOwned(db, Atomic(call, db).db, call.intent.id, ToMicro(call.now));
    } else {
      CommitsExactly(call, db);
      var plan := Plan(call, db).value;
      var w := Execute(plan.stmt, call.fieldsValid, db).value;
      WrittenKeepsOwned(call, db, plan, w);
      SeqnoIsNoRow(Put(db.rows, w.id, w.row), db.rows.seqno + 1);
    }
  }

  lemma {:induction false} ReplayOwned(calls: seq<Call>)
    requires AllCommit(calls)
    ensures Owned(Replay(calls).rows)
  {
    if calls != [] {
      var n := |calls| - 1;
      FrontCommits(calls, n);
      ReplayOwned(calls[..n]);
      ReplayConsistent(calls[..n]);
      LastReplayed(calls);
      CommitKeepsOwned(calls[n], Replay(calls[..n]));
    }
  }

  /** In every reachable state every selected option exists and belongs to the slot that selects it. */
  lemma EverySelectionIsOwned(actions: seq<Action>)
    ensures Owned(Run(actions).db.rows)
  {
    RefinesSerial(actions);
    ReplayOwned(Run(actions).history);
  }

  // ----- exactly which calls leave a slot on a deleted option -----

  /** The call selects an option that is deleted, which its caller can see before it. */
  predicate SelectsBuried(call: Call, db: Db) {
    && call.intent.SelectOption? && call.intent.selected.Some?
    && call.intent.selected.value in db.rows.options && db.rows.options[call.intent.selected.value].deletedAt.Some?
  }

  lemma BuriedSlotPut(r: Replica, id: ID, s: Slot)
    requires NoneBuried(r)
    requires s.deletedAt.None? && s.selected.Some? && s.selected.value in r.options
    ensures NoneBuried(Put(r, id, SlotRow(s))) <==> r.options[s.selected.value].deletedAt.None?
  {
    var r' := Put(r, id, SlotRow(s));
    assert ChoseBuried(r', id) <==> r.options[s.selected.value].deletedAt.Some?;
    forall other | other != id ensures !ChoseBuried(r', other) {
      assert !ChoseBuried(r, other);
    }
  }

  lemma QuietSlotPut(r: Replica, id: ID, s: Slot)
    requires NoneBuried(r)
    requires s.deletedAt.None? ==> s.selected.None? || (IsLive(r.slots, id) && s.selected == r.slots[id].selected)
    ensures NoneBuried(Put(r, id, SlotRow(s)))
  {
    var r' := Put(r, id, SlotRow(s));
    forall other ensures !ChoseBuried(r', other) {
      assert !ChoseBuried(r, other);
    }
  }

  lemma QuietOptionPut(r: Replica, id: ID, o: SlotOption)
    requires NoneBuried(r) && o.deletedAt.None?
    ensures NoneBuried(Put(r, id, OptionRow(o)))
  {
    var r' := Put(r, id, OptionRow(o));
    forall other ensures !ChoseBuried(r', other) {
      assert !ChoseBuried(r, other);
    }
  }

  lemma OtherPut(r: Replica, id: ID, row: Row)
    requires NoneBuried(r) && !row.SlotRow? && !row.OptionRow?
    ensures NoneBuried(Put(r, id, row))
  {
    forall other ensures !ChoseBuried(Put(r, id, row), other) {
      assert !ChoseBuried(r, other);
    }
  }

  lemma WrittenBuriesExactly(call: Call, db: Db, plan: Planned, w: Written)
    requires NoneBuried(db.rows) && !call.intent.DeleteOption?
    requires Plan(call, db) == Ok(plan) && Execute(plan.stmt, call.fieldsValid, db) == Ok(w)
    ensures NoneBuried(Put(db.rows, w.id, w.row)) <==> !SelectsBuried(call, db)
  {
    WrittenTable(call, db, plan, w);
    match TargetTable(call.intent)
    case SlotEntity =>
      WrittenSlot(call, db, plan, w);
      if call.intent.SelectOption? && call.intent.selected.Some? {
        BuriedSlotPut(db.rows, w.id, w.row.slot);
      } else {
        QuietSlotPut(db.rows, w.id, w.row.slot);
      }
    case OptionEntity =>
      WrittenOption(call, db, plan, w);
      QuietOptionPut(db.rows, w.id, w.row.option);
    case _ => OtherPut(db.rows, w.id, w.row);
  }

  /** Deleting an option buries no choice: the one slot that may have selected it is cleared with it. */
  lemma GoneBuriesNone(before: Db, after: Db, id: ID, at: Time)
    requires Owned(before.rows) && NoneBuried(before.rows)
    requires id in before.rows.options && OptionGone(before, after, id, at)
    ensures NoneBuried(after.rows)
  {
    forall other ensures !ChoseBuried(after.rows, other) {
      assert !ChoseBuried(before.rows, other);
    }
  }

  /** Where no live slot selects a deleted option, a committed call keeps it so exactly when it does not itself select one. */
  lemma ChoiceStaysLiveExactly(call: Call, db: Db)
    requires Consistent(db) && Owned(db.rows) && NoneBuried(db.rows) && Atomic(call, db).Committed?
    ensures NoneBuried(Atomic(call, db).db.rows) <==> !SelectsBuried(call, db)
  {
    if call.intent.DeleteOption? {
      DeleteOptionExactly(call, db);
      GoneBuriesNone(db, Atomic(call, db).db, call.intent.id, ToMicro(call.now));
    } else {
      CommitsExactly(call, db);
      var plan := Plan(call, db).value;
      var w := Execute(plan.stmt, call.fieldsValid, db).value;
      WrittenBuriesExactly(call, db, plan, w);
      SeqnoIsNoRow(Put(db.rows, w.id, w.row), db.rows.seqno + 1);
    }
  }

  /** None of the calls, run one after another, selects an option that is deleted by then. */
  ghost predicate Careful(calls: seq<Call>) {
    forall i :: 0 <= i < |calls| ==> !SelectsBuried(calls[i], Replay(calls[..i]))
  }

  lemma {:induction false} CarefulFront(calls: seq<Call>, n: nat)
    requires Careful(calls) && n <= |calls|
    ensures Careful(calls[..n]) && (n < |calls| ==> !SelectsBuried(calls[n], Replay(calls[..n])))
  {
    forall i | 0 <= i < n ensures !SelectsBuried(calls[..n][i], Replay(calls[..n][..i])) {
      assert calls[..n][..i] == calls[..i];
    }
  }

  lemma {:induction false} ReplayBuriesNone(calls: seq<Call>)
    requires AllCommit(calls) && Careful(calls)
    ensures NoneBuried(Replay(calls).rows)
  {
    if calls != [] {
      var n := |calls| - 1;
      FrontCommits(calls, n);
      CarefulFront(calls, n);
      ReplayBuriesNone(calls[..n]);
      LastReplayed(calls);
      CarefulCommit(calls[n], calls[..n]);
    }
  }

  lemma {:induction false} CarefulCommit(call: Call, before: seq<Call>)
    requires AllCommit(before) && NoneBuried(Replay(before).rows) && Atomic(call, Replay(before)).Committed?
    requires !SelectsBuried(call, Replay(before))
    ensures NoneBuried(Atomic(call, Replay(before)).db.rows)
  {
    ReplayConsistent(before);
    ReplayOwned(before);
    ChoiceStaysLiveExactly(call, Replay(before));
  }

  /** While no committed call has selected an option that was then deleted, no live slot selects a deleted one. */
  lemma CarefulRunsBuryNone(actions: seq<Action>)
    requires Careful(Run(actions).history)
    ensures NoneBuried(Run(actions).db.rows)
  {
    RefinesSerial(actions);
    ReplayBuriesNone(Run(actions).history);
  }

  // ----- two states the services let arise -----

  /** A call whose values are valid, without a client operation id. */
  function Plainly(intent: Intent): Call {
    Call(1, 0, None, None, true, {}, intent)
  }

  const NO_CONTENT := SlotContent([], [], [], None, None)
  const NO_PLACE := OptionContent([], [], [], None, [], [], None, None, [])

  lemma FirstSlotCommits(s: ID)
    ensures var call := Plainly(CreateSlot(s, None, NO_CONTENT, None));
      && Atomic(call, EMPTY_DB).Committed?
      && var r := Atomic(call, EMPTY_DB).db.rows; IsLive(r.slots, s) && r.slots[s].selected.None? && r.options == map[]
  {
    var call := Plainly(CreateSlot(s, None, NO_CONTENT, None));
    EmptyIsConsistent();
    SentinelIsNoKey();
    assert Bucket(EMPTY_DB.rows.slots, None) == {};
    SlotPlacingCommitsExactly(call, EMPTY_DB);
    CommitsExactly(call, EMPTY_DB);
    SlotPlaced(call, EMPTY_DB, Plan(call, EMPTY_DB).value,
               Execute(Plan(call, EMPTY_DB).value.stmt, true, EMPTY_DB).value);
    WrittenSlot(call, EMPTY_DB, Plan(call, EMPTY_DB).value,
                Execute(Plan(call, EMPTY_DB).value.stmt, true, EMPTY_DB).value);
  }

  lemma ProposalCommits(db: Db, s: ID, o: ID)
    requires Consistent(db) && IsLive(db.rows.slots, s) && o !in db.rows.options
    ensures var call := Plainly(CreateOption(o, s, NO_PLACE));
      && Atomic(call, db).Committed?
      && var r := Atomic(call, db).db.rows;
         && r.slots == db.rows.slots && o in r.options && r.options == db.rows.options[o := r.options[o]]
         && r.options[o].slotId == s && r.options[o].deletedAt.None?
  {
    CommitsExactly(Plainly(CreateOption(o, s, NO_PLACE)), db);
  }

  lemma DeletionCommits(db: Db, s: ID, o: ID)
    requires Consistent(db) && IsLive(db.rows.slots, s) && db.rows.slots[s].selected.None?
    requires o in db.rows.options && db.rows.options[o].slotId == s && db.rows.options[o].deletedAt.None?
    ensures var call := Plainly(DeleteOption(o, None));
      && Atomic(call, db).Committed?
      && var r := Atomic(call, db).db.rows;
         r.slots == db.rows.slots && o in r.options && r.options[o].slotId == s && r.options[o].deletedAt.Some?
  {
    DeleteOptionExactly(Plainly(DeleteOption(o, None)), db);
  }

  lemma SelectionCommits(db: Db, s: ID, o: ID)
    requires Consistent(db) && IsLive(db.rows.slots, s) && o in db.rows.options && db.rows.options[o].slotId == s
    ensures var call := Plainly(SelectOption(s, Some(o), None));
      && Atomic(call, db).Committed?
      && var r := Atomic(call, db).db.rows;
         IsLive(r.slots, s) && r.slots[s].selected == Some(o) && r.options == db.rows.options
  {
    var call := Plainly(SelectOption(s, Some(o), None));
    SelectCommitsExactly(call, db);
    CommitsExactly(call, db);
    WrittenSlot(call, db, Plan(call, db).value, Execute(Plan(call, db).value.stmt, true, db).value);
  }

  lemma SlotDeletionCommits(db: Db, s: ID)
    requires Consistent(db) && IsLive(db.rows.slots, s)
    ensures var call := Plainly(DeleteSlot(s, None));
      && Atomic(call, db).Committed?
      && var r := Atomic(call, db).db.rows;
         s in r.slots && r.slots[s].deletedAt.Some? && r.options == db.rows.options
  {
    CommitsExactly(Plainly(DeleteSlot(s, None)), db);
  }

  /** A slot with one candidate, by two calls. */
  lemma {:induction false} WithCandidate(s: ID, o: ID) returns (calls: seq<Call>)
    ensures AllCommit(calls)
    ensures var db := Replay(calls);
      && Consistent(db) && IsLive(db.rows.slots, s) && db.rows.slots[s].selected.None?
      && o in db.rows.options && db.rows.options[o].slotId == s && db.rows.options[o].deletedAt.None?
  {
    FirstSlotCommits(s);
    CommitsNext([], Plainly(CreateSlot(s, None, NO_CONTENT, None)));
    calls := [] + [Plainly(CreateSlot(s, None, NO_CONTENT, None))];
    ReplayConsistent(calls);
    ProposalCommits(Replay(calls), s, o);
    CommitsNext(calls, Plainly(CreateOption(o, s, NO_PLACE)));
    calls := calls + [Plainly(CreateOption(o, s, NO_PLACE))];
    ReplayConsistent(calls);
  }

  lemma {:induction false} WithDeletedCandidate(s: ID, o: ID) returns (calls: seq<Call>)
    ensures AllCommit(calls)
    ensures var db := Replay(calls);
      && Consistent(db) && IsLive(db.rows.slots, s)
      && o in db.rows.options && db.rows.options[o].slotId == s && db.rows.options[o].deletedAt.Some?
  {
    var before := WithCandidate(s, o);
    DeletionCommits(Replay(before), s, o);
    CommitsNext(before, Plainly(DeleteOption(o, None)));
    calls := before + [Plainly(DeleteOption(o, None))];
    ReplayConsistent(calls);
  }

  lemma SelectionBuries(db: Db, s: ID, o: ID)
    requires Consistent(db) && IsLive(db.rows.slots, s)
    requires o in db.rows.options && db.rows.options[o].slotId == s && db.rows.options[o].deletedAt.Some?
    ensures var call := Plainly(SelectOption(s, Some(o), None));
      Atomic(call, db).Committed? && ChoseBuried(Atomic(call, db).db.rows, s)
  {
    SelectionCommits(db, s, o);
  }

  /** A run after which a live slot selects a deleted option: propose, delete, then select. */
  lemma {:induction false} DeletedOptionCanBeChosen(s: ID, o: ID) returns (actions: seq<Action>)
    ensures ChoseBuried(Run(actions).db.rows, s) && !NoneBuried(Run(actions).db.rows)
  {
    var calls := WithDeletedCandidate(s, o);
    SelectionBuries(Replay(calls), s, o);
    CommitsNext(calls, Plainly(SelectOption(s, Some(o), None)));
    actions := SerialRuns(calls + [Plainly(SelectOption(s, Some(o), None))]);
  }

  lemma {:induction false} WithDeletedSlot(s: ID, o: ID) returns (calls: seq<Call>)
    ensures AllCommit(calls)
    ensures var db := Replay(calls);
      Consistent(db) && !IsLive(db.rows.slots, s) && Live(db, OptionEntity, o).Ok? && db.rows.options[o].slotId == s
  {
    var before := WithCandidate(s, o);
    SlotDeletionCommits(Replay(before), s);
    CommitsNext(before, Plainly(DeleteSlot(s, None)));
    calls := before + [Plainly(DeleteSlot(s, None))];
    ReplayConsistent(calls);
  }

  lemma CannotBeDeleted(call: Call, db: Db, s: ID, o: ID)
    requires Consistent(db) && Live(db, OptionEntity, o).Ok? && db.rows.options[o].slotId == s && !IsLive(db.rows.slots, s)
    requires call.intent.DeleteOption? && call.intent.id == o
    ensures Atomic(call, db).RolledBack?
  {
    DeleteOptionExactly(call, db);
  }

  /** A run after which a live option stands under a deleted slot, and can no longer be deleted by any call. */
  lemma {:induction false} OptionCanOutliveItsSlot(s: ID, o: ID) returns (actions: seq<Action>)
    ensures var db := Run(actions).db;
      && Live(db, OptionEntity, o).Ok? && db.rows.options[o].slotId == s && !IsLive(db.rows.slots, s)
      && forall call: Call :: call.intent.DeleteOption? && call.intent.id == o ==> Atomic(call, db).RolledBack?
  {
    var calls := WithDeletedSlot(s, o);
    actions := SerialRuns(calls);
    forall call: Call | call.intent.DeleteOption? && call.intent.id == o ensures Atomic(call, Replay(calls)).RolledBack? {
      CannotBeDeleted(call, Replay(calls), s, o);
    }
  }
}
