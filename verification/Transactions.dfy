/** A whole write as one step: run from its reads to its commit with nobody in between. Committed, it keeps the
    database consistent; and a write that states no version is never refused for one. */
module Transactions {
  import opened Outcomes
  import opened ByteOrder
  import opened Domain
  import opened Folding
  import opened Lenses
  import opened Tables
  import opened Placement
  import opened Ledger
  import opened Writes
  import opened Convergence

  // ----- what is planned and written is what gets recorded -----

  /** The row a record planned with a statement describes: the tombstone worked out beforehand, or the row written. */
  function Recorded(plan: Planned, w: Written): Row {
    if plan.source.Deleted? then plan.source.tombstone else w.row
  }

  /** The row a planned statement leaves is what the tables keep of the row its record describes, and that record accounts
      for it in full. */
  ghost predicate PlanKept(db: Db, plan: Planned, w: Written, actor: ID) {
    && Fits(db, w.id, Recorded(plan, w), plan.kind, plan.mask, actor)
    && w.row == KeptRow(Recorded(plan, w))
    && (plan.source.Reread? ==> w.row.SlotRow? && w.row.slot.deletedAt.None? && !plan.kind.OptionDelete?)
  }

  lemma DayAgrees(d: Day, date: Option<Time>, caption: Str, position: Str, version: nat, mask: FieldMask)
    requires date == d.date || Date in mask
    requires caption == d.caption || Label in mask
    requires position == d.position || Position in mask
    ensures AgreeOutside(DayRow(d), DayRow(Day(date, caption, position, version, d.deletedAt)), mask)
  {
  }

  lemma SlotEditAgrees(s: Slot, given: SlotContent, mask: FieldMask, version: nat)
    ensures var m := MergeSlot(s, mask, given);
      AgreeOutside(SlotRow(s), SlotRow(s.(kind := m.kind, title := m.title, notes := m.notes, startTime := m.startTime,
                                          endTime := m.endTime, version := version)), mask)
  {
  }

  lemma PlaceAgrees(s: Slot, dayId: Option<ID>, position: Str, version: nat)
    ensures AgreeOutside(SlotRow(s), SlotRow(s.(dayId := dayId, position := position, version := version)), {DayID, Position})
  {
    var t := s.(dayId := dayId, position := position, version := version);
    forall f: Field | f !in {DayID, Position} ensures SlotValue(s, f) == SlotValue(t, f) {
    }
    SlotsAgree(s, t, {DayID, Position});
  }

  lemma SelectionAgrees(s: Slot, selected: Option<ID>, version: nat)
    ensures AgreeOutside(SlotRow(s), SlotRow(s.(selected := selected, version := version)), {SelectedOptionID})
  {
    var t := s.(selected := selected, version := version);
    forall f: Field | f !in {SelectedOptionID} ensures SlotValue(s, f) == SlotValue(t, f) {
    }
    SlotsAgree(s, t, {SelectedOptionID});
  }

  lemma StatusAgrees(s: Slot, status: Str, at: Option<Time>, who: Option<ID>, version: nat)
    ensures AgreeOutside(SlotRow(s), SlotRow(s.(status := status, changedAt := at, changedBy := who, version := version)),
                         {Status, StatusChangedAt, StatusChangedBy})
  {
    var t := s.(status := status, changedAt := at, changedBy := who, version := version);
    var mask := {Status, StatusChangedAt, StatusChangedBy};
    forall f: Field | f !in mask ensures SlotValue(s, f) == SlotValue(t, f) {
    }
    SlotsAgree(s, t, mask);
  }

  lemma SlotsAgree(s: Slot, t: Slot, mask: FieldMask)
    requires s.createdBy == t.createdBy
    requires forall f: Field :: f !in mask ==> SlotValue(s, f) == SlotValue(t, f)
    ensures AgreeOutside(SlotRow(s), SlotRow(t), mask)
  {
  }

  lemma OptionsAgree(o: SlotOption, p: SlotOption, mask: FieldMask)
    requires o.proposedBy == p.proposedBy
    requires forall f: Field :: f !in mask ==> OptionValue(o, f) == OptionValue(p, f)
    ensures AgreeOutside(OptionRow(o), OptionRow(p), mask)
  {
  }

  lemma BudgetsAgree(e: Budget, g: Budget, mask: FieldMask)
    requires e.createdBy == g.createdBy
    requires forall f: Field :: f !in mask ==> BudgetField(e, f) == BudgetField(g, f)
    ensures AgreeOutside(BudgetRow(e), BudgetRow(g), mask)
  {
  }

  lemma SlotCreateAgrees(s: Slot, actor: ID)
    requires s.selected.None? && s.changedAt.None? && s.changedBy.None? && s.deletedAt.None? && s.createdBy == Some(actor)
    ensures AgreeOutside(Blank(SlotEntity, Some(actor)), SlotRow(s), AllowedFields(SlotCreate))
  {
    var blank := BlankSlot(Some(actor));
    forall f: Field | f !in AllowedFields(SlotCreate) ensures SlotValue(blank, f) == SlotValue(s, f) {
    }
    SlotsAgree(blank, s, AllowedFields(SlotCreate));
  }

  lemma OptionEditAgrees(o: SlotOption, given: OptionContent, mask: FieldMask, version: nat)
    ensures var m := MergeOption(o, mask, given);
      AgreeOutside(OptionRow(o),
                   OptionRow(o.(title := m.title, notes := m.notes, url := m.url, cost := m.cost, placeName := m.placeName,
                                placeAddress := m.placeAddress, lat := m.lat, lng := m.lng, providerId := m.providerId,
                                version := version)), mask)
  {
    var m := MergeOption(o, mask, given);
    var p := o.(title := m.title, notes := m.notes, url := m.url, cost := m.cost, placeName := m.placeName,
                placeAddress := m.placeAddress, lat := m.lat, lng := m.lng, providerId := m.providerId, version := version);
    forall f: Field | f !in mask ensures OptionValue(o, f) == OptionValue(p, f) {
    }
    OptionsAgree(o, p, mask);
  }

  lemma OptionCreateAgrees(o: SlotOption, actor: ID)
    requires o.deletedAt.None? && o.proposedBy == Some(actor)
    ensures AgreeOutside(Blank(OptionEntity, Some(actor)), OptionRow(o), AllowedFields(OptionCreate))
  {
    var blank := BlankOption(Some(actor));
    forall f: Field | f !in AllowedFields(OptionCreate) ensures OptionValue(blank, f) == OptionValue(o, f) {
    }
    OptionsAgree(blank, o, AllowedFields(OptionCreate));
  }

  lemma VoteAgrees(x: Row, v: Vote)
    requires x.VoteRow?
    ensures AgreeOutside(x, VoteRow(v), AllowedFields(VoteSet))
  {
  }

  lemma BudgetAgrees(x: Budget, e: Budget)
    requires x.createdBy == e.createdBy && x.deletedAt == e.deletedAt
    ensures AgreeOutside(BudgetRow(x), BudgetRow(e), AllowedFields(BudgetSet))
  {
    forall f: Field | f !in AllowedFields(BudgetSet) ensures BudgetField(x, f) == BudgetField(e, f) {
    }
    BudgetsAgree(x, e, AllowedFields(BudgetSet));
  }

  lemma SlotTombstoneAgrees(row: Row, at: Time)
    requires row.SlotRow?
    ensures AgreeOutside(row, Tombstone(row, at), {DeletedAt})
  {
    var s, t := row.slot, Tombstone(row, at).slot;
    forall f: Field | f !in {DeletedAt} ensures SlotValue(s, f) == SlotValue(t, f) {
    }
    SlotsAgree(s, t, {DeletedAt});
  }

  lemma OptionTombstoneAgrees(row: Row, at: Time)
    requires row.OptionRow?
    ensures AgreeOutside(row, Tombstone(row, at), {DeletedAt})
  {
    var o, p := row.option, Tombstone(row, at).option;
    forall f: Field | f !in {DeletedAt} ensures OptionValue(o, f) == OptionValue(p, f) {
    }
    OptionsAgree(o, p, {DeletedAt});
  }

  lemma DayTombstoneAgrees(row: Row, at: Time)
    requires row.DayRow?
    ensures AgreeOutside(row, Tombstone(row, at), {DeletedAt})
  {
  }

  lemma BudgetTombstoneAgrees(row: Row, at: Time)
    requires row.BudgetRow?
    ensures AgreeOutside(row, Tombstone(row, at), {DeletedAt})
  {
    var e, g := row.entry, Tombstone(row, at).entry;
    forall f: Field | f !in {DeletedAt} ensures BudgetField(e, f) == BudgetField(g, f) {
    }
    BudgetsAgree(e, g, {DeletedAt});
  }

  lemma TombstoneAgrees(row: Row, at: Time)
    requires !row.VoteRow?
    ensures AgreeOutside(row, Tombstone(row, at), {DeletedAt})
  {
    if row.DayRow? {
      DayTombstoneAgrees(row, at);
    } else if row.SlotRow? {
      SlotTombstoneAgrees(row, at);
    } else if row.OptionRow? {
      OptionTombstoneAgrees(row, at);
    } else {
      BudgetTombstoneAgrees(row, at);
    }
  }

  lemma PlannedDays(call: Call, db: Db, plan: Planned, w: Written)
    requires Refusal(call.intent).None?
    requires call.intent.CreateDay? || call.intent.EditDay? || call.intent.MoveDay?
    requires Plan(call, db) == Ok(plan) && Execute(plan.stmt, call.fieldsValid, db) == Ok(w)
    ensures PlanKept(db, plan, w, call.actor)
  {
    var d := w.row.day;
    var before := if w.id in db.rows.days then db.rows.days[w.id] else BLANK_DAY;
    DayAgrees(before, d.date, d.caption, d.position, d.version, plan.mask);
  }

  lemma PlannedSlotContent(call: Call, db: Db, plan: Planned, w: Written)
    requires Refusal(call.intent).None?
    requires call.intent.CreateSlot? || call.intent.EditSlot?
    requires Plan(call, db) == Ok(plan) && Execute(plan.stmt, call.fieldsValid, db) == Ok(w)
    ensures PlanKept(db, plan, w, call.actor)
  {
    if call.intent.CreateSlot? {
      SlotCreateAgrees(w.row.slot, call.actor);
    } else {
      SlotEditAgrees(db.rows.slots[w.id], call.intent.slot, plan.mask, w.row.slot.version);
    }
  }

  lemma PlannedMove(call: Call, db: Db, plan: Planned, w: Written)
    requires call.intent.MoveSlot?
    requires Plan(call, db) == Ok(plan) && Execute(plan.stmt, call.fieldsValid, db) == Ok(w)
    ensures PlanKept(db, plan, w, call.actor)
  {
    var before, s := db.rows.slots[w.id], w.row.slot;
    PlaceAgrees(before, s.dayId, s.position, s.version);
  }

  lemma PlannedSelection(call: Call, db: Db, plan: Planned, w: Written)
    requires call.intent.SelectOption?
    requires Plan(call, db) == Ok(plan) && Execute(plan.stmt, call.fieldsValid, db) == Ok(w)
    ensures PlanKept(db, plan, w, call.actor)
  {
    var before, s := db.rows.slots[w.id], w.row.slot;
    SelectionAgrees(before, s.selected, s.version);
  }

  lemma PlannedStatus(call: Call, db: Db, plan: Planned, w: Written)
    requires call.intent.SetStatus?
    requires Plan(call, db) == Ok(plan) && Execute(plan.stmt, call.fieldsValid, db) == Ok(w)
    ensures PlanKept(db, plan, w, call.actor)
  {
    var before, s := db.rows.slots[w.id], w.row.slot;
    StatusAgrees(before, s.status, s.changedAt, s.changedBy, s.version);
  }

  lemma PlannedOptions(call: Call, db: Db, plan: Planned, w: Written)
    requires Refusal(call.intent).None?
    requires call.intent.CreateOption? || call.intent.EditOption?
    requires Plan(call, db) == Ok(plan) && Execute(plan.stmt, call.fieldsValid, db) == Ok(w)
    ensures PlanKept(db, plan, w, call.actor)
  {
    if call.intent.CreateOption? {
      OptionCreateAgrees(w.row.option, call.actor);
    } else {
      OptionEditAgrees(db.rows.options[w.id], call.intent.option, plan.mask, w.row.option.version);
    }
  }

  lemma PlannedVotes(call: Call, db: Db, plan: Planned, w: Written)
    requires BallotsMatch(db)
    requires call.intent.CastVote?
    requires Plan(call, db) == Ok(plan) && Execute(plan.stmt, call.fieldsValid, db) == Ok(w)
    ensures PlanKept(db, plan, w, call.actor)
  {
    VoteAgrees(match Lookup(db.rows, VoteEntity, w.id) case Some(row) => row case None => Blank(VoteEntity, Some(call.actor)),
               w.row.vote);
  }

  lemma EntryFromBalances(entry: BudgetContent, createdBy: Option<ID>, version: nat)
    requires SplitsValid(entry.amount, entry.splits)
    ensures EntryBalances(BudgetFrom(entry, createdBy, version))
  {
    SortingKeepsValid(entry.amount, entry.splits);
    SortedIsPermutation(entry.splits);
  }

  lemma PlannedEntry(call: Call, db: Db, plan: Planned, w: Written)
    requires call.intent.CreateBudget?
    requires Plan(call, db) == Ok(plan) && Execute(plan.stmt, call.fieldsValid, db) == Ok(w)
    ensures PlanKept(db, plan, w, call.actor)
  {
    EntryFromBalances(call.intent.entry, w.row.entry.createdBy, w.row.entry.version);
    BudgetAgrees(BlankBudget(Some(call.actor)), w.row.entry);
  }

  lemma PlannedLedger(call: Call, db: Db, plan: Planned, w: Written)
    requires call.intent.EditBudget?
    requires Plan(call, db) == Ok(plan) && Execute(plan.stmt, call.fieldsValid, db) == Ok(w)
    ensures PlanKept(db, plan, w, call.actor)
  {
    EntryFromBalances(call.intent.entry, w.row.entry.createdBy, w.row.entry.version);
    BudgetAgrees(db.rows.budgets[w.id], w.row.entry);
  }

  lemma PlannedDelete(db: Db, e: Entity, kind: OpKind, id: ID, now: Time, expected: Option<nat>, plan: Planned, w: Written,
                      actor: ID)
    requires LedgerBalances(db.rows) && EntityOf(kind) == e
    requires kind.DayDelete? || kind.SlotDelete? || kind.OptionDelete? || kind.BudgetDelete?
    requires PlanDelete(db, e, kind, id, now, expected) == Ok(plan) && Execute(plan.stmt, true, db) == Ok(w)
    ensures PlanKept(db, plan, w, actor)
  {
    var row := Live(db, e, id).value;
    TombstoneAgrees(row, now);
    TombstoneKept(row, now);
  }

  lemma TombstoneKept(row: Row, at: Time)
    ensures KeptRow(Tombstone(row, at)) == Tombstone(row, ToMicro(at)) || row.VoteRow?
    ensures !row.VoteRow? ==> (Tombstone(row, at) == Tombstone(row, ToMicro(at)) <==> at % NANOS_PER_MICRO == 0)
  {
  }

  /** A deletion writes the very tombstone it records exactly when its instant is on a microsecond. */
  lemma TombstoneIsWrittenExactly(call: Call, db: Db, plan: Planned, w: Written)
    requires call.intent.DeleteDay? || call.intent.DeleteSlot? || call.intent.DeleteOption? || call.intent.DeleteBudget?
    requires Plan(call, db) == Ok(plan) && Execute(plan.stmt, call.fieldsValid, db) == Ok(w)
    ensures plan.source.Deleted? && (w.row == plan.source.tombstone <==> call.now % NANOS_PER_MICRO == 0)
  {
    TombstoneKept(w.row, call.now);
  }

  function DeleteKind(intent: Intent): OpKind {
    match intent
    case DeleteDay(_, _) => DayDelete
    case DeleteSlot(_, _) => SlotDelete
    case DeleteOption(_, _) => OptionDelete
    case _ => BudgetDelete
  }

  lemma PlannedAsDelete(call: Call, db: Db, plan: Planned, w: Written)
    requires call.intent.DeleteDay? || call.intent.DeleteSlot? || call.intent.DeleteOption? || call.intent.DeleteBudget?
    requires Plan(call, db) == Ok(plan) && Execute(plan.stmt, call.fieldsValid, db) == Ok(w)
    ensures var kind := DeleteKind(call.intent);
      PlanDelete(db, EntityOf(kind), kind, call.intent.id, call.now, call.intent.expected) == Ok(plan)
    ensures Execute(plan.stmt, true, db) == Ok(w)
  {
  }

  lemma PlannedDeletes(call: Call, db: Db, plan: Planned, w: Written)
    requires LedgerBalances(db.rows)
    requires call.intent.DeleteDay? || call.intent.DeleteSlot? || call.intent.DeleteOption? || call.intent.DeleteBudget?
    requires Plan(call, db) == Ok(plan) && Execute(plan.stmt, call.fieldsValid, db) == Ok(w)
    ensures PlanKept(db, plan, w, call.actor)
  {
    PlannedAsDelete(call, db, plan, w);
    var kind := DeleteKind(call.intent);
    PlannedDelete(db, EntityOf(kind), kind, call.intent.id, call.now, call.intent.expected, plan, w, call.actor);
  }

  lemma {:induction false} PlanFits(call: Call, db: Db, plan: Planned, w: Written)
    requires Consistent(db) && Refusal(call.intent).None?
    requires Plan(call, db) == Ok(plan) && Execute(plan.stmt, call.fieldsValid, db) == Ok(w)
    ensures PlanKept(db, plan, w, call.actor)
  {
    match call.intent
    case CreateDay(_, _, _, _) => PlannedDays(call, db, plan, w);
    case EditDay(_, _, _, _, _) => PlannedDays(call, db, plan, w);
    case MoveDay(_, _, _) => PlannedDays(call, db, plan, w);
    case DeleteDay(_, _) => PlannedDeletes(call, db, plan, w);
    case CreateSlot(_, _, _, _) => PlannedSlotContent(call, db, plan, w);
    case EditSlot(_, _, _, _) => PlannedSlotContent(call, db, plan, w);
    case MoveSlot(_, _, _, _) => PlannedMove(call, db, plan, w);
    case SelectOption(_, _, _) => PlannedSelection(call, db, plan, w);
    case SetStatus(_, _, _) => PlannedStatus(call, db, plan, w);
    case DeleteSlot(_, _) => PlannedDeletes(call, db, plan, w);
    case CreateOption(_, _, _) => PlannedOptions(call, db, plan, w);
    case EditOption(_, _, _, _) => PlannedOptions(call, db, plan, w);
    case DeleteOption(_, _) => PlannedDeletes(call, db, plan, w);
    case CastVote(_, _, _) => PlannedVotes(call, db, plan, w);
    case CreateBudget(_, _) => PlannedEntry(call, db, plan, w);
    case EditBudget(_, _, _) => PlannedLedger(call, db, plan, w);
    case DeleteBudget(_, _) => PlannedDeletes(call, db, plan, w);
  }

  // ----- one statement at a time -----

  /** Once the drafted operation has its number and is in the log, everything is sound. */
  ghost predicate Owed(call: Call, db: Db, draft: Draft) {
    && draft.payload.Some?
    && ClientOpsUnique(db.log)
    && Sound(Logged(db, OpOf(call, draft, db.rows.seqno + 1)))
  }

  /** Where a write stands, on the view its transaction has. */
  ghost predicate PcSound(call: Call, pc: Pc, db: Db) {
    match pc
    case Reading => Consistent(db)
    case Writing(plan) => Consistent(db) && Plan(call, db) == Ok(plan)
    case Rereading(kind, id, mask, first) =>
      && id in db.rows.slots && db.rows.slots[id].deletedAt.None?
      && Owed(call, db, DraftOf(kind, id, mask, SlotRow(db.rows.slots[id]), first))
    case Allocating(draft) => Owed(call, db, draft)
    case Appending(draft, seqno) =>
      && draft.payload.Some?
      && ClientOpsUnique(db.log)
      && db.rows.seqno == seqno
      && Sound(db.(log := db.log + [OpOf(call, draft, seqno)]))
    case Clearing(_, _) => Consistent(db)
    case Unselecting(_, _) => Consistent(db)
    case Finished => Consistent(db)
    case Failed(_) => true
  }

  lemma OneEffect(db: Db, e: Effect)
    ensures AffectAll(db, [e]) == Affect(db, e)
  {
  }

  /** Having written what is kept of a row that fits, the transaction owes the log the operation drafted from it. */
  lemma WrittenIsOwed(call: Call, db: Db, w: Written, row: Row, kind: OpKind, mask: FieldMask, first: bool)
    requires Consistent(db) && Fits(db, w.id, row, kind, mask, call.actor) && w.row == KeptRow(row)
    ensures Owed(call, Affect(db, PutRow(w.id, w.row)), DraftOf(kind, w.id, mask, row, first))
  {
    RecordKeepsSound(call, db, w.id, row, kind, mask, first);
  }

  lemma WritingKeeps(call: Call, plan: Planned, db: Db)
    requires Refusal(call.intent).None? && Consistent(db) && Plan(call, db) == Ok(plan)
    ensures var s := Next(call, Writing(plan), db); PcSound(call, s.pc, AffectAll(db, s.effects))
  {
    var r := Execute(plan.stmt, call.fieldsValid, db);
    if r.Ok? {
      var w := r.value;
      PlanFits(call, db, plan, w);
      WrittenIsOwed(call, db, w, Recorded(plan, w), plan.kind, plan.mask, true);
      OneEffect(db, PutRow(w.id, w.row));
    }
  }

  lemma UnselectedFits(db: Db, slotId: ID, version: nat, w: Written, actor: ID)
    requires Execute(UpdateSelected(slotId, None, version), true, db) == Ok(w)
    ensures w.row.SlotRow? && w.row.slot.deletedAt.None? && w.row == KeptRow(w.row)
    ensures Fits(db, w.id, w.row, SlotSelectOption, {SelectedOptionID}, actor)
  {
    SelectionAgrees(db.rows.slots[slotId], None, version + 1);
  }

  lemma UnselectingKeeps(call: Call, slotId: ID, version: nat, db: Db)
    requires Consistent(db)
    ensures var s := Next(call, Unselecting(slotId, version), db); PcSound(call, s.pc, AffectAll(db, s.effects))
  {
    var r := Execute(UpdateSelected(slotId, None, version), true, db);
    if r.Ok? {
      var w := r.value;
      UnselectedFits(db, slotId, version, w, call.actor);
      WrittenIsOwed(call, db, w, w.row, SlotSelectOption, {SelectedOptionID}, false);
      OneEffect(db, PutRow(w.id, w.row));
    }
  }

  lemma AllocatingKeeps(call: Call, draft: Draft, db: Db)
    requires PcSound(call, Allocating(draft), db)
    ensures var s := Next(call, Allocating(draft), db); PcSound(call, s.pc, AffectAll(db, s.effects))
  {
    OneEffect(db, TakeSeq);
    var after := Affect(db, TakeSeq);
    assert after.(log := after.log + [OpOf(call, draft, after.rows.seqno)]) == Logged(db, OpOf(call, draft, after.rows.seqno));
  }

  lemma AppendingKeeps(call: Call, draft: Draft, seqno: nat, db: Db)
    requires PcSound(call, Appending(draft, seqno), db)
    ensures var s := Next(call, Appending(draft, seqno), db); PcSound(call, s.pc, AffectAll(db, s.effects))
  {
    var op := OpOf(call, draft, seqno);
    OneEffect(db, AddOp(op));
    if Appendable(db.log, op) {
      assert ClientOpsUnique(db.log + [op]);
    }
  }

  /** Every statement of a write keeps it sound. */
  lemma {:induction false} NextKeeps(call: Call, pc: Pc, db: Db)
    requires Refusal(call.intent).None? && !pc.Finished? && !pc.Failed?
    requires PcSound(call, pc, db)
    ensures var s := Next(call, pc, db); PcSound(call, s.pc, AffectAll(db, s.effects))
  {
    match pc
    case Reading =>
    case Writing(plan) => WritingKeeps(call, plan, db);
    case Rereading(_, _, _, _) =>
    case Allocating(draft) => AllocatingKeeps(call, draft, db);
    case Appending(draft, seqno) => AppendingKeeps(call, draft, seqno, db);
    case Clearing(_, _) =>
    case Unselecting(slotId, version) => UnselectingKeeps(call, slotId, version, db);
  }

  // ----- what a write adds to the log -----

  predicate SecondHalf(pc: Pc) {
    match pc
    case Rereading(_, _, _, first) => !first
    case Allocating(draft) => !draft.first
    case Appending(draft, _) => !draft.first
    case Clearing(_, _) => true
    case Unselecting(_, _) => true
    case _ => false
  }

  /** The operations a call may add: one, or a second that its first one caused. Only the first carries the client's id. */
  predicate CallAdds(call: Call, ops: seq<Op>) {
    && 1 <= |ops| <= 2
    && ops[0].clientOp == call.clientOp
    && (|ops| == 2 ==> ops[0].kind.OptionDelete? && ops[1].kind.SlotSelectOption? && ops[1].clientOp.None?)
    && forall i :: 0 <= i < |ops| ==> ops[i].actor == Some(call.actor) && ops[i].causeOp == call.causeOp
  }

  predicate DraftReady(draft: Draft) {
    if draft.first then draft.cascade.Some? <==> draft.kind.OptionDelete?
    else draft.kind.SlotSelectOption? && draft.cascade.None?
  }

  /** How far a write has got with the log it found. */
  predicate Adds(call: Call, pc: Pc, base: seq<Op>, db: Db) {
    && base <= db.log
    && var added := db.log[|base|..];
       && (pc.Finished? ==> CallAdds(call, added))
       && (SecondHalf(pc) ==> CallAdds(call, added) && |added| == 1 && added[0].kind.OptionDelete?)
       && (!pc.Finished? && !SecondHalf(pc) ==> added == [])
       && (pc.Rereading? ==> !pc.kind.OptionDelete? && (!pc.first ==> pc.kind.SlotSelectOption?))
       && (pc.Allocating? ==> DraftReady(pc.draft))
       && (pc.Appending? ==> DraftReady(pc.draft))
  }

  lemma WritingAdds(call: Call, plan: Planned, db: Db)
    requires Refusal(call.intent).None? && Consistent(db) && Plan(call, db) == Ok(plan)
    ensures var s := Next(call, Writing(plan), db);
      && AffectAll(db, s.effects).log == db.log
      && !SecondHalf(s.pc) && !s.pc.Finished?
      && (s.pc.Rereading? ==> !s.pc.kind.OptionDelete? && s.pc.first)
      && (s.pc.Allocating? ==> DraftReady(s.pc.draft)) && !s.pc.Appending?
  {
    var r := Execute(plan.stmt, call.fieldsValid, db);
    if r.Ok? {
      RecordedTable(call, db, plan, r.value);
      OneEffect(db, PutRow(r.value.id, r.value.row));
      WritingStepAdds(call, plan, db, r.value);
    }
  }

  lemma RecordedTable(call: Call, db: Db, plan: Planned, w: Written)
    requires Refusal(call.intent).None? && Consistent(db)
    requires Plan(call, db) == Ok(plan) && Execute(plan.stmt, call.fieldsValid, db) == Ok(w)
    ensures TableOf(Recorded(plan, w)) == EntityOf(plan.kind) && (plan.source.Reread? ==> !plan.kind.OptionDelete?)
  {
    PlanFits(call, db, plan, w);
  }

  lemma WritingStepAdds(call: Call, plan: Planned, db: Db, w: Written)
    requires Execute(plan.stmt, call.fieldsValid, db) == Ok(w)
    requires TableOf(Recorded(plan, w)) == EntityOf(plan.kind) && (plan.source.Reread? ==> !plan.kind.OptionDelete?)
    ensures var s := Next(call, Writing(plan), db);
      && s.effects == [PutRow(w.id, w.row)]
      && !SecondHalf(s.pc) && !s.pc.Finished?
      && (s.pc.Rereading? ==> !s.pc.kind.OptionDelete? && s.pc.first)
      && (s.pc.Allocating? ==> DraftReady(s.pc.draft)) && !s.pc.Appending?
  {
    if plan.source.Reread? {
    } else {
      assert DraftReady(DraftOf(plan.kind, w.id, plan.mask, Recorded(plan, w), true));
    }
  }

  lemma AppendingAdds(call: Call, draft: Draft, seqno: nat, base: seq<Op>, db: Db)
    requires Adds(call, Appending(draft, seqno), base, db) && draft.payload.Some?
    requires !Next(call, Appending(draft, seqno), db).pc.Failed?
    ensures var s := Next(call, Appending(draft, seqno), db); Adds(call, s.pc, base, AffectAll(db, s.effects))
  {
  }

  lemma SteppingAdds(call: Call, pc: Pc, base: seq<Op>, db: Db)
    requires pc.Reading? || pc.Rereading? || pc.Clearing?
    requires Adds(call, pc, base, db) && !Next(call, pc, db).pc.Failed?
    ensures var s := Next(call, pc, db); Adds(call, s.pc, base, AffectAll(db, s.effects))
  {
  }

  lemma AllocatingAdds(call: Call, draft: Draft, base: seq<Op>, db: Db)
    requires Adds(call, Allocating(draft), base, db) && !Next(call, Allocating(draft), db).pc.Failed?
    ensures var s := Next(call, Allocating(draft), db); Adds(call, s.pc, base, AffectAll(db, s.effects))
  {
  }

  lemma {:induction false} NextAdds(call: Call, pc: Pc, base: seq<Op>, db: Db)
    requires Refusal(call.intent).None? && !pc.Finished? && !pc.Failed?
    requires Adds(call, pc, base, db) && PcSound(call, pc, db)
    requires !Next(call, pc, db).pc.Failed?
    ensures var s := Next(call, pc, db); Adds(call, s.pc, base, AffectAll(db, s.effects))
  {
    match pc
    case Writing(plan) => WritingAdds(call, plan, db);
    case Allocating(draft) => AllocatingAdds(call, draft, base, db);
    case Appending(draft, seqno) => AppendingAdds(call, draft, seqno, base, db);
    case Unselecting(slotId, version) => UnselectingAdds(call, slotId, version, db);
    case _ => SteppingAdds(call, pc, base, db);
  }

  lemma UnselectingAdds(call: Call, slotId: ID, version: nat, db: Db)
    requires !Next(call, Unselecting(slotId, version), db).pc.Failed?
    ensures var s := Next(call, Unselecting(slotId, version), db);
      AffectAll(db, s.effects).log == db.log && s.pc.Rereading? && s.pc.kind.SlotSelectOption? && !s.pc.first
  {
  }

  // ----- the whole write -----

  datatype Outcome = Committed(db: Db) | RolledBack(error: DbError)

  ghost function Completion(call: Call, pc: Pc, db: Db): Outcome
    decreases Left(pc)
  {
    match pc
    case Finished => Committed(db)
    case Failed(e) => RolledBack(e)
    case _ =>
      LeftDecreases(call, pc, db);
      var s := Next(call, pc, db);
      Completion(call, s.pc, AffectAll(db, s.effects))
  }

  lemma CompletionStep(call: Call, pc: Pc, db: Db)
    requires !pc.Finished? && !pc.Failed?
    ensures var s := Next(call, pc, db);
      Left(s.pc) < Left(pc) && Completion(call, pc, db) == Completion(call, s.pc, AffectAll(db, s.effects))
  {
    LeftDecreases(call, pc, db);
  }

  /** A write that runs alone. */
  ghost function Atomic(call: Call, db: Db): Outcome {
    match Refusal(call.intent)
    case Some(e) => RolledBack(e)
    case None => Completion(call, Reading, db)
  }

  lemma {:induction false} CompletionKeeps(call: Call, pc: Pc, base: seq<Op>, db: Db)
    requires Refusal(call.intent).None? && PcSound(call, pc, db) && Completion(call, pc, db).Committed?
    requires Adds(call, pc, base, db)
    ensures Consistent(Completion(call, pc, db).db)
    ensures base <= Completion(call, pc, db).db.log && CallAdds(call, Completion(call, pc, db).db.log[|base|..])
    decreases Left(pc)
  {
    if !pc.Finished? {
      CompletionStep(call, pc, db);
      NextKeeps(call, pc, db);
      var s := Next(call, pc, db);
      NextAdds(call, pc, base, db);
      CompletionKeeps(call, s.pc, base, AffectAll(db, s.effects));
    }
  }

  /** A committed write keeps the database consistent: the log, grown by the one or two operations of this call, folds again,
      to the entities there are, with their versions. */
  lemma CommittedKeepsConsistent(call: Call, db: Db)
    requires Consistent(db) && Atomic(call, db).Committed?
    ensures var after := Atomic(call, db).db;
      && Consistent(after) && FoldFollows(after)
      && db.log <= after.log && CallAdds(call, after.log[|db.log|..])
  {
    CompletionKeeps(call, Reading, db.log, db);
  }
}
