/** Edits as masked assignments: what a version-less edit does, when a version refuses a write, and how two edits of
    one row combine. */
module Merging {
  import opened Outcomes
  import opened ByteOrder
  import opened Domain
  import opened Folding
  import opened Tables
  import opened Placement
  import opened Writes
  import opened Convergence
  import opened Transactions

  predicate IsEdit(intent: Intent) {
    intent.EditDay? || intent.EditSlot? || intent.EditOption?
  }

  /** The version a write states, if it states one. */
  function Expected(intent: Intent): Option<nat> {
    match intent
    case EditDay(_, _, _, _, expected) => expected
    case MoveDay(_, _, expected) => expected
    case DeleteDay(_, expected) => expected
    case EditSlot(_, _, _, expected) => expected
    case MoveSlot(_, _, _, expected) => expected
    case SelectOption(_, _, expected) => expected
    case SetStatus(_, _, expected) => expected
    case DeleteSlot(_, expected) => expected
    case EditOption(_, _, _, expected) => expected
    case DeleteOption(_, expected) => expected
    case EditBudget(_, _, expected) => if expected == Some(0) then None else expected
    case DeleteBudget(_, expected) => expected
    case _ => None
  }

  /** The table a write's target row is in. */
  function TargetTable(intent: Intent): Entity {
    match intent
    case CreateDay(_, _, _, _) | EditDay(_, _, _, _, _) | MoveDay(_, _, _) | DeleteDay(_, _) => DayEntity
    case CreateSlot(_, _, _, _) | EditSlot(_, _, _, _) | MoveSlot(_, _, _, _) | SelectOption(_, _, _)
       | SetStatus(_, _, _) | DeleteSlot(_, _) => SlotEntity
    case CreateOption(_, _, _) | EditOption(_, _, _, _) | DeleteOption(_, _) => OptionEntity
    case CastVote(_, _, _) => VoteEntity
    case CreateBudget(_, _) | EditBudget(_, _, _) | DeleteBudget(_, _) => BudgetEntity
  }

  /** The call states a version, and the live row it found has another. */
  predicate Stale(intent: Intent, db: Db) {
    Expected(intent).Some? && Expected(intent).value != VersionAt(db.rows, TargetTable(intent), intent.id)
  }

  lemma PlanNeverConflicts(call: Call, db: Db)
    ensures Plan(call, db) != Err(VersionConflict)
  {
  }

  lemma EditConflicts(call: Call, db: Db, plan: Planned)
    requires call.intent.EditDay? || call.intent.EditSlot? || call.intent.EditOption? || call.intent.EditBudget?
    requires Plan(call, db) == Ok(plan)
    ensures Execute(plan.stmt, call.fieldsValid, db) == Err(VersionConflict) <==> Stale(call.intent, db)
  {
  }

  lemma DeleteConflicts(call: Call, db: Db, plan: Planned)
    requires call.intent.DeleteDay? || call.intent.DeleteSlot? || call.intent.DeleteOption? || call.intent.DeleteBudget?
    requires Plan(call, db) == Ok(plan)
    ensures Execute(plan.stmt, call.fieldsValid, db) == Err(VersionConflict) <==> Stale(call.intent, db)
  {
  }

  lemma ExecuteConflicts(call: Call, db: Db, plan: Planned)
    requires Plan(call, db) == Ok(plan)
    ensures Execute(plan.stmt, call.fieldsValid, db) == Err(VersionConflict) <==> Stale(call.intent, db)
  {
    match call.intent
    case EditDay(_, _, _, _, _) => EditConflicts(call, db, plan);
    case EditSlot(_, _, _, _) => EditConflicts(call, db, plan);
    case EditOption(_, _, _, _) => EditConflicts(call, db, plan);
    case EditBudget(_, _, _) => EditConflicts(call, db, plan);
    case DeleteDay(_, _) => DeleteConflicts(call, db, plan);
    case DeleteSlot(_, _) => DeleteConflicts(call, db, plan);
    case DeleteOption(_, _) => DeleteConflicts(call, db, plan);
    case DeleteBudget(_, _) => DeleteConflicts(call, db, plan);
    case _ =>
  }

  /** The version the cascade states is the one it has just read. */
  predicate CascadeCurrent(pc: Pc, db: Db) {
    && !pc.Reading? && !pc.Writing?
    && (pc.Unselecting? ==>
          pc.slotId in db.rows.slots && db.rows.slots[pc.slotId].version == pc.version
          && db.rows.slots[pc.slotId].deletedAt.None?)
  }

  lemma {:induction false} LateStatementsNeverConflict(call: Call, pc: Pc, db: Db)
    requires CascadeCurrent(pc, db) && pc != Failed(VersionConflict)
    ensures Completion(call, pc, db) != RolledBack(VersionConflict)
    decreases Left(pc)
  {
    if !pc.Finished? && !pc.Failed? {
      CompletionStep(call, pc, db);
      var s := Next(call, pc, db);
      assert CascadeCurrent(s.pc, AffectAll(db, s.effects)) && s.pc != Failed(VersionConflict);
      LateStatementsNeverConflict(call, s.pc, AffectAll(db, s.effects));
    }
  }

  ghost function AfterReading(call: Call, db: Db): Outcome {
    match Plan(call, db)
    case Err(e) => RolledBack(e)
    case Ok(plan) => AfterWriting(call, plan, db)
  }

  ghost function AfterWriting(call: Call, plan: Planned, db: Db): Outcome {
    match Execute(plan.stmt, call.fieldsValid, db)
    case Err(e) => RolledBack(e)
    case Ok(w) => Completion(call, Next(call, Writing(plan), db).pc, Affect(db, PutRow(w.id, w.row)))
  }

  /** The reads, the first writing statement, and then the rest. */
  lemma AtomicUnfolds(call: Call, db: Db)
    requires Refusal(call.intent).None?
    ensures Atomic(call, db) == AfterReading(call, db)
  {
    CompletionStep(call, Reading, db);
    assert AffectAll(db, []) == db;
    if Plan(call, db).Ok? {
      var plan := Plan(call, db).value;
      assert Completion(call, Reading, db) == Completion(call, Writing(plan), db);
      CompletionStep(call, Writing(plan), db);
      var r := Execute(plan.stmt, call.fieldsValid, db);
      if r.Ok? {
        OneEffect(db, PutRow(r.value.id, r.value.row));
      }
    }
  }

  /** A write is refused for its version exactly when it states one and the row it found has another. One that states
      none is never refused for it, nor is the second operation of a cascade: the lock is held from before the read. */
  lemma VersionConflictExactly(call: Call, db: Db)
    ensures Atomic(call, db) == RolledBack(VersionConflict) <==>
      Refusal(call.intent).None? && Plan(call, db).Ok? && Stale(call.intent, db)
  {
    PlanNeverConflicts(call, db);
    if Refusal(call.intent).None? {
      AtomicUnfolds(call, db);
      if Plan(call, db).Ok? {
        var plan := Plan(call, db).value;
        ExecuteConflicts(call, db, plan);
        var r := Execute(plan.stmt, call.fieldsValid, db);
        if r.Ok? {
          LateStatementsNeverConflict(call, Next(call, Writing(plan), db).pc, Affect(db, PutRow(r.value.id, r.value.row)));
        }
      }
    }
  }

  // ----- an edit is one masked assignment -----

  function EditKind(intent: Intent): OpKind
    requires IsEdit(intent)
  {
    match intent
    case EditDay(_, _, _, _, _) => DayEdit
    case EditSlot(_, _, _, _) => SlotEdit
    case EditOption(_, _, _, _) => OptionEdit
  }

  /** The fields an edit changes. */
  function EditMask(intent: Intent): FieldMask
    requires IsEdit(intent)
  {
    MaskFor(EditKind(intent), intent.fields)
  }

  /** A row showing what an edit was given. */
  function GivenRow(intent: Intent): Row
    requires IsEdit(intent)
  {
    match intent
    case EditDay(_, _, date, caption, _) => DayRow(BLANK_DAY.(date := date, caption := caption))
    case EditSlot(_, _, c, _) =>
      SlotRow(BlankSlot(None).(kind := c.kind, title := c.title, notes := c.notes, startTime := c.startTime,
                               endTime := c.endTime))
    case EditOption(_, _, c, _) =>
      OptionRow(WithContent(BlankOption(None), c))
  }

  /** after is before with the masked columns taken from given. */
  ghost predicate Assigned(before: Row, after: Row, given: Row, mask: FieldMask) {
    && TableOf(after) == TableOf(before)
    && forall f :: f in Columns(TableOf(before)) ==>
         Column(after, f) == if f in mask then Column(given, f) else Column(before, f)
  }

  lemma EditedDay(call: Call, db: Db, plan: Planned, w: Written)
    requires call.intent.EditDay? && Refusal(call.intent).None?
    requires Plan(call, db) == Ok(plan) && Execute(plan.stmt, call.fieldsValid, db) == Ok(w)
    ensures Assigned(Lookup(db.rows, DayEntity, w.id).value, w.row, GivenRow(call.intent), EditMask(call.intent))
  {
  }

  lemma EditedSlot(call: Call, db: Db, plan: Planned, w: Written)
    requires call.intent.EditSlot? && Refusal(call.intent).None?
    requires Plan(call, db) == Ok(plan) && Execute(plan.stmt, call.fieldsValid, db) == Ok(w)
    ensures Assigned(Lookup(db.rows, SlotEntity, w.id).value, w.row, GivenRow(call.intent), EditMask(call.intent))
  {
    var before, given, mask := db.rows.slots[w.id], GivenRow(call.intent).slot, EditMask(call.intent);
    forall f: Field | f in Columns(SlotEntity)
      ensures SlotValue(w.row.slot, f) == if f in mask then SlotValue(given, f) else SlotValue(before, f)
    {
    }
  }

  lemma EditedOption(call: Call, db: Db, plan: Planned, w: Written)
    requires call.intent.EditOption? && Refusal(call.intent).None?
    requires Plan(call, db) == Ok(plan) && Execute(plan.stmt, call.fieldsValid, db) == Ok(w)
    ensures Assigned(Lookup(db.rows, OptionEntity, w.id).value, w.row, GivenRow(call.intent), EditMask(call.intent))
  {
    var before, c, mask := db.rows.options[w.id], call.intent.option, EditMask(call.intent);
    assert mask <= AllowedFields(OptionEdit);
    assert w.row.option == WithContent(before, MergeOption(before, mask, c)).(version := w.row.option.version);
    OptionColumns(before, w.row.option, c, mask);
  }

  lemma OptionColumns(before: SlotOption, after: SlotOption, c: OptionContent, mask: FieldMask)
    requires mask <= AllowedFields(OptionEdit)
    requires after == WithContent(before, MergeOption(before, mask, c)).(version := after.version)
    ensures Assigned(OptionRow(before), OptionRow(after), OptionRow(WithContent(BlankOption(None), c)), mask)
  {
    forall f: Field
      ensures OptionValue(after, f) == if f in mask then OptionValue(WithContent(BlankOption(None), c), f) else OptionValue(before, f)
    {
      OptionColumn(before, after, c, mask, f);
    }
  }

  function WithContent(o: SlotOption, c: OptionContent): SlotOption {
    o.(title := c.title, notes := c.notes, url := c.url, cost := c.cost, placeName := c.placeName,
       placeAddress := c.placeAddress, lat := c.lat, lng := c.lng, providerId := c.providerId)
  }

  lemma OptionColumn(before: SlotOption, after: SlotOption, c: OptionContent, mask: FieldMask, f: Field)
    requires mask <= AllowedFields(OptionEdit)
    requires after == WithContent(before, MergeOption(before, mask, c)).(version := after.version)
    ensures OptionValue(after, f) == if f in mask then OptionValue(WithContent(BlankOption(None), c), f) else OptionValue(before, f)
  {
  }

  /** No operation of the log carries the call's client operation id. */
  predicate FreshClientOp(call: Call, log: seq<Op>) {
    call.clientOp.Some? ==> forall i :: 0 <= i < |log| ==> log[i].clientOp != call.clientOp
  }

  lemma FreshIsAppendable(call: Call, draft: Draft, db: Db)
    requires Gapless(db) && draft.payload.Some? && draft.first
    ensures Appendable(db.log, OpOf(call, draft, db.rows.seqno + 1)) <==> FreshClientOp(call, db.log)
  {
  }

  function AfterAppend(draft: Draft): Pc {
    if draft.cascade.Some? then Clearing(draft.cascade.value, draft.entity) else Finished
  }

  /** Recording a drafted operation: its number, its place in the log, and what is left to do. */
  lemma RecordsOnce(call: Call, draft: Draft, written: Db)
    requires draft.payload.Some? && MaskValid(draft.mask, draft.kind)
    ensures var op := OpOf(call, draft, written.rows.seqno + 1);
      Completion(call, Allocating(draft), written) ==
        if Appendable(written.log, op) then Completion(call, AfterAppend(draft), Logged(written, op))
        else RolledBack(AlreadyExists)
  {
    var op, taken := OpOf(call, draft, written.rows.seqno + 1), Affect(written, TakeSeq);
    CompletionStep(call, Allocating(draft), written);
    OneEffect(written, TakeSeq);
    assert Completion(call, Allocating(draft), written) == Completion(call, Appending(draft, op.seqno), taken);
    CompletionStep(call, Appending(draft, op.seqno), taken);
    if Appendable(written.log, op) {
      OneEffect(taken, AddOp(op));
      assert Next(call, Appending(draft, op.seqno), taken) == Step(AfterAppend(draft), [AddOp(op)]);
      assert Affect(taken, AddOp(op)) == Logged(written, op);
    } else {
      assert Next(call, Appending(draft, op.seqno), taken) == Step(Failed(AlreadyExists), []);
      assert AffectAll(taken, []) == taken;
    }
  }

  lemma RecordedOn(call: Call, db: Db, draft: Draft, written: Db)
    requires Gapless(db) && written.log == db.log && written.rows.seqno == db.rows.seqno
    requires draft.payload.Some? && draft.first && MaskValid(draft.mask, draft.kind)
    ensures Completion(call, Allocating(draft), written) ==
      if FreshClientOp(call, db.log)
      then Completion(call, AfterAppend(draft), Logged(written, OpOf(call, draft, db.rows.seqno + 1)))
      else RolledBack(AlreadyExists)
  {
    RecordsOnce(call, draft, written);
    FreshIsAppendable(call, draft, db);
  }

  lemma PutLeavesLog(db: Db, id: ID, row: Row)
    ensures var written := Affect(db, PutRow(id, row)); written.log == db.log && written.rows.seqno == db.rows.seqno
  {
  }

  /** How a write goes on once its row is written: by recording its first operation, if the client's id is new. */
  lemma RecordedWrite(call: Call, db: Db, w: Written, row: Row, kind: OpKind, mask: FieldMask)
    requires Gapless(db)
    requires TableOf(row) == EntityOf(kind) && MaskValid(mask, kind) && RowBalances(row)
    ensures var draft := DraftOf(kind, w.id, mask, row, true); var written := Affect(db, PutRow(w.id, w.row));
      && draft.payload.Some?
      && Completion(call, Allocating(draft), written) ==
           if FreshClientOp(call, db.log)
           then Completion(call, AfterAppend(draft), Logged(written, OpOf(call, draft, db.rows.seqno + 1)))
           else RolledBack(AlreadyExists)
  {
    OpDescribes(call, w.id, row, kind, mask, true, db.rows.seqno + 1);
    PutLeavesLog(db, w.id, w.row);
    RecordedOn(call, db, DraftOf(kind, w.id, mask, row, true), Affect(db, PutRow(w.id, w.row)));
  }

  /** after has one row other than before does, and that row is before's with the edit's fields assigned. */
  ghost predicate EditsOnly(before: Replica, after: Replica, intent: Intent)
    requires IsEdit(intent)
  {
    var e, id := TargetTable(intent), intent.id;
    && Lookup(before, e, id).Some? && Lookup(after, e, id).Some?
    && Assigned(Lookup(before, e, id).value, Lookup(after, e, id).value, GivenRow(intent), EditMask(intent))
    && VersionAt(after, e, id) == VersionAt(before, e, id) + 1
    && forall e', id' :: e' != e || id' != id ==> Lookup(after, e', id') == Lookup(before, e', id')
  }

  lemma EditTarget(call: Call, db: Db, plan: Planned, w: Written)
    requires IsEdit(call.intent) && Refusal(call.intent).None?
    requires Plan(call, db) == Ok(plan) && Execute(plan.stmt, call.fieldsValid, db) == Ok(w)
    ensures w.id == call.intent.id && TableOf(w.row) == TargetTable(call.intent)
    ensures Lookup(db.rows, TableOf(w.row), w.id).Some? && Version(w.row) == VersionAt(db.rows, TableOf(w.row), w.id) + 1
    ensures plan.source.Returned? && !plan.kind.OptionDelete?
  {
  }

  lemma EditWritten(call: Call, db: Db, plan: Planned, w: Written)
    requires IsEdit(call.intent) && Refusal(call.intent).None?
    requires Plan(call, db) == Ok(plan) && Execute(plan.stmt, call.fieldsValid, db) == Ok(w)
    requires w.id == call.intent.id && TableOf(w.row) == TargetTable(call.intent)
    requires Lookup(db.rows, TableOf(w.row), w.id).Some?
    ensures Assigned(Lookup(db.rows, TableOf(w.row), w.id).value, w.row, GivenRow(call.intent), EditMask(call.intent))
  {
    if call.intent.EditDay? {
      EditedDay(call, db, plan, w);
    } else if call.intent.EditSlot? {
      EditedSlot(call, db, plan, w);
    } else {
      EditedOption(call, db, plan, w);
    }
  }

  lemma StoredOnly(db: Db, w: Written, op: Op, intent: Intent)
    requires IsEdit(intent) && w.id == intent.id && TableOf(w.row) == TargetTable(intent)
    requires Lookup(db.rows, TableOf(w.row), w.id).Some? && Version(w.row) == VersionAt(db.rows, TableOf(w.row), w.id) + 1
    requires Assigned(Lookup(db.rows, TableOf(w.row), w.id).value, w.row, GivenRow(intent), EditMask(intent))
    ensures EditsOnly(db.rows, Logged(Affect(db, PutRow(w.id, w.row)), op).rows, intent)
  {
  }

  lemma EditRecorded(call: Call, db: Db, plan: Planned, w: Written)
    requires Gapless(db) && IsEdit(call.intent) && !plan.kind.OptionDelete?
    requires TableOf(w.row) == EntityOf(plan.kind) && MaskValid(plan.mask, plan.kind) && RowBalances(w.row)
    requires w.id == call.intent.id && TableOf(w.row) == TargetTable(call.intent)
    requires Lookup(db.rows, TableOf(w.row), w.id).Some? && Version(w.row) == VersionAt(db.rows, TableOf(w.row), w.id) + 1
    requires Assigned(Lookup(db.rows, TableOf(w.row), w.id).value, w.row, GivenRow(call.intent), EditMask(call.intent))
    ensures var end := Completion(call, Allocating(DraftOf(plan.kind, w.id, plan.mask, w.row, true)), Affect(db, PutRow(w.id, w.row)));
      end.Committed? ==> EditsOnly(db.rows, end.db.rows, call.intent)
  {
    RecordedWrite(call, db, w, w.row, plan.kind, plan.mask);
    var draft := DraftOf(plan.kind, w.id, plan.mask, w.row, true);
    StoredOnly(db, w, OpOf(call, draft, db.rows.seqno + 1), call.intent);
  }

  /** A committed edit assigns exactly the fields it names, and one version; nothing else in the trip changes. */
  lemma EditAssigns(call: Call, db: Db)
    requires Consistent(db) && IsEdit(call.intent) && Atomic(call, db).Committed?
    ensures EditsOnly(db.rows, Atomic(call, db).db.rows, call.intent)
  {
    AtomicUnfolds(call, db);
    var plan := Plan(call, db).value;
    var w := Execute(plan.stmt, call.fieldsValid, db).value;
    EditTarget(call, db, plan, w);
    EditWritten(call, db, plan, w);
    PlanFits(call, db, plan, w);
    EditRecorded(call, db, plan, w);
  }

  lemma ContentEditExecutes(call: Call, db: Db)
    requires call.intent.EditSlot? || call.intent.EditOption?
    ensures (Plan(call, db).Ok? && Execute(Plan(call, db).value.stmt, call.fieldsValid, db).Ok?) <==>
      Live(db, TargetTable(call.intent), call.intent.id).Ok? && !Stale(call.intent, db) && call.fieldsValid
  {
  }

  /** An edit of a slot's or an option's content commits exactly when its mask and values are valid, its row is live, the
      version it may state is the row's, and its client operation id is new. An edit of a deleted row is refused. */
  lemma ContentEditCommitsExactly(call: Call, db: Db)
    requires Consistent(db) && (call.intent.EditSlot? || call.intent.EditOption?)
    ensures Atomic(call, db).Committed? <==>
      && Refusal(call.intent).None?
      && Live(db, TargetTable(call.intent), call.intent.id).Ok? && !Stale(call.intent, db)
      && call.fieldsValid
      && FreshClientOp(call, db.log)
  {
    ContentEditExecutes(call, db);
    if Refusal(call.intent).None? {
      AtomicUnfolds(call, db);
      if Plan(call, db).Ok? && Execute(Plan(call, db).value.stmt, call.fieldsValid, db).Ok? {
        var plan := Plan(call, db).value;
        var w := Execute(plan.stmt, call.fieldsValid, db).value;
        EditTarget(call, db, plan, w);
        PlanFits(call, db, plan, w);
        RecordedWrite(call, db, w, w.row, plan.kind, plan.mask);
      }
    }
  }

  /** Two edits of one row, one after the other: every field the first names and the second does not keeps the first's
      value, a field both name has the second's, and the rest is as it was. With disjoint masks both survive whole. */
  lemma BothEditsSurvive(a: Call, b: Call, db: Db)
    requires Consistent(db) && IsEdit(a.intent) && IsEdit(b.intent)
    requires TargetTable(a.intent) == TargetTable(b.intent) && a.intent.id == b.intent.id
    requires Atomic(a, db).Committed? && Atomic(b, Atomic(a, db).db).Committed?
    ensures var e, id := TargetTable(a.intent), a.intent.id;
      var before, after := RowOrBlank(db.rows, e, id), RowOrBlank(Atomic(b, Atomic(a, db).db).db.rows, e, id);
      forall f :: f in Columns(e) ==>
        Column(after, f) ==
          if f in EditMask(b.intent) then Column(GivenRow(b.intent), f)
          else if f in EditMask(a.intent) then Column(GivenRow(a.intent), f)
          else Column(before, f)
  {
    CommittedKeepsConsistent(a, db);
    EditAssigns(a, db);
    EditAssigns(b, Atomic(a, db).db);
  }

  // ----- a ledger edit that states version zero -----

  /** An edit of a ledger entry that states version zero is an insert to the repository, so it never commits; it is refused
      because the entry exists exactly when the entry is live and the ledger accepts the new content. */
  lemma ZeroVersionIsAnInsert(call: Call, db: Db)
    requires call.intent.EditBudget? && call.intent.expected == Some(0)
    ensures Atomic(call, db).RolledBack?
    ensures Atomic(call, db) == RolledBack(AlreadyExists) <==>
      Live(db, BudgetEntity, call.intent.id).Ok? && LedgerAccepts(call.intent.entry, call.members)
  {
    AtomicUnfolds(call, db);
  }
}
