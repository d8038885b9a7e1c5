/** Selecting an option, and the cascade when a selected option is deleted (internal/service/slot.go SetSelectedOption,
    option.go Delete). */
module Selections {
  import opened Outcomes
  import opened Domain
  import opened Folding
  import opened Tables
  import opened Writes
  import opened Convergence
  import opened Transactions
  import opened Merging

  lemma RereadRecords(call: Call, db: Db, w: Written, kind: OpKind, mask: FieldMask)
    requires Gapless(db) && w.row.SlotRow? && w.row.slot.deletedAt.None?
    requires EntityOf(kind) == SlotEntity && MaskValid(mask, kind)
    ensures var written := Affect(db, PutRow(w.id, w.row)); var draft := DraftOf(kind, w.id, mask, w.row, true);
      && draft.payload.Some?
      && Completion(call, Rereading(kind, w.id, mask, true), written) ==
           if FreshClientOp(call, db.log) then Committed(Logged(written, OpOf(call, draft, db.rows.seqno + 1)))
           else RolledBack(AlreadyExists)
  {
    var written := Affect(db, PutRow(w.id, w.row));
    CompletionStep(call, Rereading(kind, w.id, mask, true), written);
    assert AffectAll(written, []) == written;
    assert Live(written, SlotEntity, w.id) == Ok(w.row);
    RecordedWrite(call, db, w, w.row, kind, mask);
  }

  /** Selecting commits exactly when the slot is live, the version fits, and the option belongs to the slot. That the
      option is still live is not asked: a tombstoned option can be selected. */
  lemma SelectCommitsExactly(call: Call, db: Db)
    requires Gapless(db) && call.intent.SelectOption?
    ensures Atomic(call, db).Committed? <==>
      && Live(db, SlotEntity, call.intent.id).Ok? && !Stale(call.intent, db)
      && OptionOfSlot(db, call.intent.selected, call.intent.id)
      && FreshClientOp(call, db.log)
    ensures Atomic(call, db).Committed? ==>
      var slots := Atomic(call, db).db.rows.slots;
      call.intent.id in slots && slots[call.intent.id].selected == call.intent.selected
  {
    AtomicUnfolds(call, db);
    if Plan(call, db).Ok? && Execute(Plan(call, db).value.stmt, call.fieldsValid, db).Ok? {
      var plan := Plan(call, db).value;
      var w := Execute(plan.stmt, call.fieldsValid, db).value;
      RereadRecords(call, db, w, SlotSelectOption, {SelectedOptionID});
    }
  }

  // ----- deleting an option -----

  lemma ClearingEnds(call: Call, slotId: ID, option: ID, db: Db)
    requires !(slotId in db.rows.slots && db.rows.slots[slotId].deletedAt.None? && db.rows.slots[slotId].selected == Some(option))
    ensures Completion(call, Clearing(slotId, option), db) ==
      if slotId in db.rows.slots && db.rows.slots[slotId].deletedAt.None? then Committed(db) else RolledBack(NotFound)
  {
  }

  /** The slot after its selection is cleared. */
  function Unselected(s: Slot): Slot {
    s.(selected := None, version := s.version + 1)
  }

  /** The second operation of the cascade: the slot's selection, cleared. */
  lemma ClearingUnselects(call: Call, slotId: ID, option: ID, db: Db)
    requires Gapless(db)
    requires slotId in db.rows.slots && db.rows.slots[slotId].deletedAt.None? && db.rows.slots[slotId].selected == Some(option)
    ensures var row := SlotRow(Unselected(db.rows.slots[slotId]));
      var draft := DraftOf(SlotSelectOption, slotId, {SelectedOptionID}, row, false);
      && draft.payload.Some?
      && Completion(call, Clearing(slotId, option), db) ==
           Committed(Logged(Affect(db, PutRow(slotId, row)), OpOf(call, draft, db.rows.seqno + 1)))
  {
    var row := SlotRow(Unselected(db.rows.slots[slotId]));
    UnselectStep(call, slotId, option, db);
    RereadStep(call, slotId, row, Affect(db, PutRow(slotId, row)));
    UnselectRecorded(call, slotId, row, db);
  }

  lemma UnselectRecorded(call: Call, slotId: ID, row: Row, db: Db)
    requires Gapless(db) && row.SlotRow?
    ensures var draft := DraftOf(SlotSelectOption, slotId, {SelectedOptionID}, row, false);
      var written := Affect(db, PutRow(slotId, row));
      && draft.payload.Some?
      && Completion(call, Allocating(draft), written) == Committed(Logged(written, OpOf(call, draft, db.rows.seqno + 1)))
  {
    OpDescribes(call, slotId, row, SlotSelectOption, {SelectedOptionID}, false, db.rows.seqno + 1);
    RecordsOnce(call, DraftOf(SlotSelectOption, slotId, {SelectedOptionID}, row, false), Affect(db, PutRow(slotId, row)));
  }

  lemma UnselectStep(call: Call, slotId: ID, option: ID, db: Db)
    requires slotId in db.rows.slots && db.rows.slots[slotId].deletedAt.None? && db.rows.slots[slotId].selected == Some(option)
    ensures Completion(call, Clearing(slotId, option), db) ==
      Completion(call, Rereading(SlotSelectOption, slotId, {SelectedOptionID}, false),
                 Affect(db, PutRow(slotId, SlotRow(Unselected(db.rows.slots[slotId])))))
  {
    var s := db.rows.slots[slotId];
    CompletionStep(call, Clearing(slotId, option), db);
    assert AffectAll(db, []) == db;
    assert Completion(call, Clearing(slotId, option), db) == Completion(call, Unselecting(slotId, s.version), db);
    CompletionStep(call, Unselecting(slotId, s.version), db);
    UnselectStatement(call, slotId, db);
    OneEffect(db, PutRow(slotId, SlotRow(Unselected(s))));
  }

  lemma UnselectStatement(call: Call, slotId: ID, db: Db)
    requires slotId in db.rows.slots && db.rows.slots[slotId].deletedAt.None?
    ensures var s := db.rows.slots[slotId];
      Next(call, Unselecting(slotId, s.version), db) ==
        Step(Rereading(SlotSelectOption, slotId, {SelectedOptionID}, false), [PutRow(slotId, SlotRow(Unselected(s)))])
  {
  }

  lemma RereadStep(call: Call, slotId: ID, row: Row, written: Db)
    requires Live(written, SlotEntity, slotId) == Ok(row)
    ensures Completion(call, Rereading(SlotSelectOption, slotId, {SelectedOptionID}, false), written) ==
      Completion(call, Allocating(DraftOf(SlotSelectOption, slotId, {SelectedOptionID}, row, false)), written)
  {
  }

  /** A committed option deletion leaves the option tombstoned, its slot live and not selecting it, and every other row
      as it was; the log has a second operation exactly when the slot had selected the option. */
  ghost predicate OptionGone(before: Db, after: Db, id: ID, at: Time)
    requires id in before.rows.options
  {
    var slotId := before.rows.options[id].slotId;
    && after.rows.options == before.rows.options[id := before.rows.options[id].(deletedAt := Some(at),
                                                       version := before.rows.options[id].version + 1)]
    && after.rows.days == before.rows.days && after.rows.votes == before.rows.votes
    && after.rows.budgets == before.rows.budgets
    && slotId in before.rows.slots
    && var s := before.rows.slots[slotId];
       if s.selected == Some(id) then
         after.rows.slots == before.rows.slots[slotId := Unselected(s)] && |after.log| == |before.log| + 2
       else after.rows.slots == before.rows.slots && |after.log| == |before.log| + 1
  }

  lemma DeletionWritten(call: Call, db: Db)
    requires call.intent.DeleteOption?
    ensures (Plan(call, db).Ok? && Execute(Plan(call, db).value.stmt, call.fieldsValid, db).Ok?) <==>
      Live(db, OptionEntity, call.intent.id).Ok? && !Stale(call.intent, db)
    ensures Live(db, OptionEntity, call.intent.id).Ok? && !Stale(call.intent, db) ==>
      var id := call.intent.id;
      var row := Tombstone(OptionRow(db.rows.options[id]), call.now);
      var plan := Plan(call, db).value;
      && Execute(plan.stmt, call.fieldsValid, db) == Ok(Written(id, Tombstone(OptionRow(db.rows.options[id]), ToMicro(call.now))))
      && Next(call, Writing(plan), db).pc == Allocating(DraftOf(OptionDelete, id, {DeletedAt}, row, true))
  {
  }

  lemma DeletionRecorded(call: Call, db: Db)
    requires Gapless(db) && call.intent.DeleteOption?
    requires Live(db, OptionEntity, call.intent.id).Ok? && !Stale(call.intent, db) && FreshClientOp(call, db.log)
    ensures var id := call.intent.id;
      var row := Tombstone(OptionRow(db.rows.options[id]), call.now);
      var draft := DraftOf(OptionDelete, id, {DeletedAt}, row, true);
      && draft.payload.Some?
      && Atomic(call, db) ==
           Completion(call, Clearing(db.rows.options[id].slotId, id),
                      Logged(Affect(db, PutRow(id, KeptRow(row))), OpOf(call, draft, db.rows.seqno + 1)))
  {
    DeletionWritten(call, db);
    AtomicUnfolds(call, db);
    var w := Execute(Plan(call, db).value.stmt, call.fieldsValid, db).value;
    var row := Tombstone(OptionRow(db.rows.options[call.intent.id]), call.now);
    TombstoneKept(OptionRow(db.rows.options[call.intent.id]), call.now);
    RecordedWrite(call, db, w, row, OptionDelete, {DeletedAt});
  }

  /** An option deletion commits exactly when the option is live, the version fits, the client's id is new, and the
      option's slot is still live: under a deleted slot it is refused. */
  lemma {:induction false} DeleteOptionExactly(call: Call, db: Db)
    requires Gapless(db) && call.intent.DeleteOption?
    ensures var id := call.intent.id;
      Atomic(call, db).Committed? <==>
        && Live(db, OptionEntity, id).Ok? && !Stale(call.intent, db) && FreshClientOp(call, db.log)
        && Live(db, SlotEntity, db.rows.options[id].slotId).Ok?
    ensures Atomic(call, db).Committed? ==>
      call.intent.id in db.rows.options && OptionGone(db, Atomic(call, db).db, call.intent.id, ToMicro(call.now))
  {
    if Live(db, OptionEntity, call.intent.id).Ok? && !Stale(call.intent, db) && FreshClientOp(call, db.log) {
      DeletionGoesOn(call, db, call.intent.id);
    } else {
      DeletionRefused(call, db);
    }
  }

  lemma DeletionGoesOn(call: Call, db: Db, id: ID)
    requires Gapless(db) && call.intent.DeleteOption? && id == call.intent.id
    requires Live(db, OptionEntity, id).Ok? && !Stale(call.intent, db) && FreshClientOp(call, db.log)
    ensures Atomic(call, db).Committed? <==> Live(db, SlotEntity, db.rows.options[id].slotId).Ok?
    ensures Atomic(call, db).Committed? ==> OptionGone(db, Atomic(call, db).db, id, ToMicro(call.now))
  {
    DeletionRecorded(call, db);
    var row := Tombstone(OptionRow(db.rows.options[id]), call.now);
    var op := OpOf(call, DraftOf(OptionDelete, id, {DeletedAt}, row, true), db.rows.seqno + 1);
    var once := Logged(Affect(db, PutRow(id, KeptRow(row))), op);
    TombstoneKept(OptionRow(db.rows.options[id]), call.now);
    DeletedOnce(db, id, ToMicro(call.now), op);
    DeletionEnds(call, db, id, once);
  }

  lemma DeletedOnce(db: Db, id: ID, at: Time, op: Op)
    requires Gapless(db) && id in db.rows.options && op.seqno == db.rows.seqno + 1
    ensures var o := db.rows.options[id]; var once := Logged(Affect(db, PutRow(id, Tombstone(OptionRow(o), at))), op);
      && Gapless(once) && |once.log| == |db.log| + 1
      && once.rows.options == db.rows.options[id := o.(deletedAt := Some(at), version := o.version + 1)]
      && once.rows.slots == db.rows.slots && once.rows.days == db.rows.days
      && once.rows.votes == db.rows.votes && once.rows.budgets == db.rows.budgets
  {
  }

  /** What follows the record of the deletion itself. */
  lemma DeletionEnds(call: Call, db: Db, id: ID, once: Db)
    requires id in db.rows.options && Gapless(once) && |once.log| == |db.log| + 1
    requires once.rows.options == db.rows.options[id := db.rows.options[id].(deletedAt := Some(ToMicro(call.now)),
                                                     version := db.rows.options[id].version + 1)]
    requires once.rows.slots == db.rows.slots && once.rows.days == db.rows.days
    requires once.rows.votes == db.rows.votes && once.rows.budgets == db.rows.budgets
    ensures var slotId := db.rows.options[id].slotId;
      var end := Completion(call, Clearing(slotId, id), once);
      && (end.Committed? <==> Live(db, SlotEntity, slotId).Ok?)
      && (end.Committed? ==> OptionGone(db, end.db, id, ToMicro(call.now)))
  {
    var slotId := db.rows.options[id].slotId;
    if Live(db, SlotEntity, slotId).Ok? && db.rows.slots[slotId].selected == Some(id) {
      ClearingUnselects(call, slotId, id, once);
    } else {
      ClearingEnds(call, slotId, id, once);
    }
  }

  lemma DeletionRefused(call: Call, db: Db)
    requires Gapless(db) && call.intent.DeleteOption?
    requires !(Live(db, OptionEntity, call.intent.id).Ok? && !Stale(call.intent, db) && FreshClientOp(call, db.log))
    ensures Atomic(call, db).RolledBack?
  {
    DeletionWritten(call, db);
    AtomicUnfolds(call, db);
    if Live(db, OptionEntity, call.intent.id).Ok? && !Stale(call.intent, db) {
      var w := Execute(Plan(call, db).value.stmt, call.fieldsValid, db).value;
      var row := Tombstone(OptionRow(db.rows.options[call.intent.id]), call.now);
      RecordedWrite(call, db, w, row, OptionDelete, {DeletedAt});
    }
  }
}
