/** Exactly which calls commit, said of the call and the rows alone, without the statements that carry them out
    (internal/service day.go, slot.go, option.go, vote.go, budget.go). */
module Acceptance {
  import opened Outcomes
  import opened Domain
  import opened Folding
  import opened Tables
  import opened Ledger
  import opened Writes
  import opened Convergence
  import opened Transactions
  import opened Merging
  import opened Effects
  import S = Selections
  import X = Exactness
  import B = Buckets

  /** The row is there, has not been deleted, and has the version the caller states, if it states one. */
  predicate Writable(db: Db, e: Entity, id: ID, expected: Option<nat>) {
    && Lookup(db.rows, e, id).Some? && DeletedAtOf(Lookup(db.rows, e, id).value).None?
    && (expected.Some? ==> expected.value == Version(Lookup(db.rows, e, id).value))
  }

  ghost predicate DayAcceptable(call: Call, db: Db) {
    match call.intent
    case CreateDay(id, date, _, after) =>
      id !in db.rows.days && DateFree(db, id, date) && call.fieldsValid && B.DayRoom(db.rows.days, after)
    case EditDay(id, fields, date, _, expected) =>
      && fields <= DAY_EDITS && Writable(db, DayEntity, id, expected) && call.fieldsValid
      && DateFree(db, id, if fields == {} || Date in fields then date else db.rows.days[id].date)
      && PositionFits(db.rows.days[id].position)
    case MoveDay(id, after, expected) =>
      && Writable(db, DayEntity, id, expected) && DateFree(db, id, db.rows.days[id].date) && call.fieldsValid
      && B.DayRoom(db.rows.days, after)
    case DeleteDay(id, expected) => Writable(db, DayEntity, id, expected)
    case _ => false
  }

  ghost predicate SlotAcceptable(call: Call, db: Db) {
    match call.intent
    case CreateSlot(id, dayId, _, after) =>
      id !in db.rows.slots && call.fieldsValid && DayExists(db, dayId) && B.SlotRoom(db.rows.slots, dayId, after)
    case EditSlot(id, fields, _, expected) =>
      fields <= SLOT_EDITS && Writable(db, SlotEntity, id, expected) && call.fieldsValid
    case MoveSlot(id, dayId, after, expected) =>
      Writable(db, SlotEntity, id, expected) && DayExists(db, dayId) && B.SlotRoom(db.rows.slots, dayId, after)
    case SelectOption(id, selected, expected) => Writable(db, SlotEntity, id, expected) && OptionOfSlot(db, selected, id)
    case SetStatus(id, _, expected) => Writable(db, SlotEntity, id, expected) && call.fieldsValid
    case DeleteSlot(id, expected) => Writable(db, SlotEntity, id, expected)
    case _ => false
  }

  /** A vote needs a live slot and an option of it; a first vote needs a new id. */
  ghost predicate OptionAcceptable(call: Call, db: Db) {
    match call.intent
    case CreateOption(id, slotId, _) =>
      id !in db.rows.options && call.fieldsValid && Writable(db, SlotEntity, slotId, None)
    case EditOption(id, fields, _, expected) =>
      fields <= OPTION_EDITS && Writable(db, OptionEntity, id, expected) && call.fieldsValid
    case DeleteOption(id, expected) =>
      Writable(db, OptionEntity, id, expected) && Writable(db, SlotEntity, db.rows.options[id].slotId, None)
    case CastVote(id, slotId, choice) =>
      && Writable(db, SlotEntity, slotId, None) && OptionOfSlot(db, choice, slotId) && call.fieldsValid
      && (HasVoted(db, slotId, call.actor) || id !in db.rows.votes)
    case _ => false
  }

  /** The ledger always wants a version, and zero is no version of an entry that exists. */
  ghost predicate EntryAcceptable(call: Call, db: Db) {
    match call.intent
    case CreateBudget(id, entry) =>
      id !in db.rows.budgets && call.fieldsValid && LedgerAccepts(entry, call.members) && OptionExists(db, entry.slotOptionId)
    case EditBudget(id, entry, expected) =>
      && expected.Some? && expected.value > 0 && Writable(db, BudgetEntity, id, expected)
      && call.fieldsValid && LedgerAccepts(entry, call.members) && OptionExists(db, entry.slotOptionId)
    case DeleteBudget(id, expected) => expected.Some? && Writable(db, BudgetEntity, id, expected)
    case _ => false
  }

  ghost predicate Acceptable(call: Call, db: Db) {
    && FreshClientOp(call, db.log)
    && match TargetTable(call.intent)
       case DayEntity => DayAcceptable(call, db)
       case SlotEntity => SlotAcceptable(call, db)
       case OptionEntity | VoteEntity => OptionAcceptable(call, db)
       case BudgetEntity => EntryAcceptable(call, db)
  }

  lemma MaskedExactly(k: OpKind, fields: FieldMask)
    requires !RequiresTotalMask(k)
    ensures MaskValid(MaskFor(k, fields), k) <==> fields <= AllowedFields(k)
  {
    if fields == {} {
      var f :| f in AllowedFields(k);
    }
  }

  lemma WritableIs(db: Db, intent: Intent, e: Entity)
    requires e == TargetTable(intent)
    ensures Live(db, e, intent.id).Ok? && !Stale(intent, db) <==> Writable(db, e, intent.id, Expected(intent))
  {
  }

  lemma DaysExecute(call: Call, db: Db)
    requires call.intent.EditDay? || call.intent.DeleteDay?
    ensures (Refusal(call.intent).None? && Plan(call, db).Ok? && Execute(Plan(call, db).value.stmt, call.fieldsValid, db).Ok?)
      <==> DayAcceptable(call, db)
  {
    if call.intent.EditDay? {
      MaskedExactly(DayEdit, call.intent.fields);
    }
  }

  lemma SlotsExecute(call: Call, db: Db)
    requires call.intent.EditSlot? || call.intent.SelectOption? || call.intent.SetStatus? || call.intent.DeleteSlot?
    ensures (Refusal(call.intent).None? && Plan(call, db).Ok? && Execute(Plan(call, db).value.stmt, call.fieldsValid, db).Ok?)
      <==> SlotAcceptable(call, db)
  {
    if call.intent.EditSlot? {
      MaskedExactly(SlotEdit, call.intent.fields);
    }
  }

  lemma OptionsExecute(call: Call, db: Db)
    requires call.intent.CreateOption? || call.intent.EditOption?
    ensures (Refusal(call.intent).None? && Plan(call, db).Ok? && Execute(Plan(call, db).value.stmt, call.fieldsValid, db).Ok?)
      <==> OptionAcceptable(call, db)
  {
    if call.intent.EditOption? {
      MaskedExactly(OptionEdit, call.intent.fields);
    }
  }

  lemma BallotFound(db: Db, slotId: ID, user: ID)
    requires BallotsMatch(db)
    ensures HasVoted(db, slotId, user) <==> (slotId, user) in db.ballots
    ensures HasVoted(db, slotId, user) ==> db.ballots[(slotId, user)] in db.rows.votes
  {
    if (slotId, user) in db.ballots {
      assert IsVoteOf(db.rows.votes[db.ballots[(slotId, user)]], slotId, user);
    }
  }

  lemma VotesExecute(call: Call, db: Db)
    requires BallotsMatch(db) && call.intent.CastVote?
    ensures (Refusal(call.intent).None? && Plan(call, db).Ok? && Execute(Plan(call, db).value.stmt, call.fieldsValid, db).Ok?)
      <==> OptionAcceptable(call, db)
  {
    BallotFound(db, call.intent.slotId, call.actor);
  }

  lemma EntriesExecute(call: Call, db: Db)
    requires TargetTable(call.intent).BudgetEntity?
    ensures (Refusal(call.intent).None? && Plan(call, db).Ok? && Execute(Plan(call, db).value.stmt, call.fieldsValid, db).Ok?)
      <==> EntryAcceptable(call, db)
  {
  }

  lemma DeletionAcceptable(call: Call, db: Db)
    requires call.intent.DeleteOption?
    ensures OptionAcceptable(call, db) <==>
      && Live(db, OptionEntity, call.intent.id).Ok? && !Stale(call.intent, db)
      && Live(db, SlotEntity, db.rows.options[call.intent.id].slotId).Ok?
  {
    WritableIs(db, call.intent, OptionEntity);
  }

  lemma SlotPlacingAcceptable(call: Call, db: Db)
    requires call.intent.CreateSlot? || call.intent.MoveSlot?
    ensures SlotAcceptable(call, db) <==>
      && (if call.intent.CreateSlot? then call.intent.id !in db.rows.slots && call.fieldsValid
          else Live(db, SlotEntity, call.intent.id).Ok? && !Stale(call.intent, db))
      && DayExists(db, call.intent.dayId)
      && B.SlotRoom(db.rows.slots, call.intent.dayId, call.intent.after)
  {
    WritableIs(db, call.intent, SlotEntity);
  }

  lemma DayPlacingAcceptable(call: Call, db: Db)
    requires call.intent.CreateDay? || call.intent.MoveDay?
    ensures DayAcceptable(call, db) <==>
      && (if call.intent.CreateDay? then call.intent.id !in db.rows.days && DateFree(db, call.intent.id, call.intent.date)
          else Live(db, DayEntity, call.intent.id).Ok? && !Stale(call.intent, db)
               && DateFree(db, call.intent.id, db.rows.days[call.intent.id].date))
      && call.fieldsValid
      && B.DayRoom(db.rows.days, call.intent.after)
  {
    WritableIs(db, call.intent, DayEntity);
  }

  lemma OrdinaryExecutes(call: Call, db: Db)
    requires BallotsMatch(db) && !call.intent.DeleteOption?
    requires !call.intent.CreateDay? && !call.intent.MoveDay? && !call.intent.CreateSlot? && !call.intent.MoveSlot?
    ensures FreshClientOp(call, db.log) ==>
      ((Refusal(call.intent).None? && Plan(call, db).Ok? && Execute(Plan(call, db).value.stmt, call.fieldsValid, db).Ok?)
       <==> Acceptable(call, db))
  {
    match TargetTable(call.intent)
    case DayEntity => DaysExecute(call, db);
    case SlotEntity => SlotsExecute(call, db);
    case OptionEntity => OptionsExecute(call, db);
    case VoteEntity => VotesExecute(call, db);
    case BudgetEntity => EntriesExecute(call, db);
  }

  /** Every call commits exactly when it is acceptable. */
  lemma CommitsWhenAcceptable(call: Call, db: Db)
    requires Consistent(db) && B.Ordered(db)
    ensures Atomic(call, db).Committed? <==> Acceptable(call, db)
  {
    if call.intent.DeleteOption? {
      S.DeleteOptionExactly(call, db);
      DeletionAcceptable(call, db);
    } else if call.intent.CreateDay? || call.intent.MoveDay? {
      B.DayPlacingCommitsExactly(call, db);
      DayPlacingAcceptable(call, db);
    } else if call.intent.CreateSlot? || call.intent.MoveSlot? {
      B.SlotPlacingCommitsExactly(call, db);
      SlotPlacingAcceptable(call, db);
    } else {
      X.CommitsExactly(call, db);
      OrdinaryExecutes(call, db);
    }
  }

  // ----- what is reported missing -----

  /** The row a call anchors to, or works on, is not there or has been deleted. */
  predicate Missing(intent: Intent, db: Db) {
    match intent
    case CreateDay(_, _, _, after) => after.Some? && !Writable(db, DayEntity, after.value, None)
    case MoveDay(id, after, _) =>
      !Writable(db, DayEntity, id, None) || (after.Some? && !Writable(db, DayEntity, after.value, None))
    case CreateSlot(_, _, _, after) => after.Some? && !Writable(db, SlotEntity, after.value, None)
    case MoveSlot(id, _, after, _) =>
      !Writable(db, SlotEntity, id, None) || (after.Some? && !Writable(db, SlotEntity, after.value, None))
    case CreateOption(_, slotId, _) => !Writable(db, SlotEntity, slotId, None)
    case CastVote(_, slotId, _) => !Writable(db, SlotEntity, slotId, None)
    case CreateBudget(_, _) => false
    case _ => !Writable(db, TargetTable(intent), intent.id, None)
  }

  /** A deletion gets as far as its option's slot, and that has been deleted. */
  predicate Orphaned(call: Call, db: Db) {
    && call.intent.DeleteOption? && Writable(db, OptionEntity, call.intent.id, call.intent.expected)
    && FreshClientOp(call, db.log)
    && !Writable(db, SlotEntity, db.rows.options[call.intent.id].slotId, None)
  }

  lemma PlanMisses(call: Call, db: Db)
    requires Refusal(call.intent).None?
    ensures Plan(call, db) == Err(NotFound) <==> Missing(call.intent, db)
  {
  }

  /** The table and row an update writes. */
  function Updated(stmt: Stmt): Option<(Entity, ID)> {
    match stmt
    case UpdateDay(id, _, _, _, _) => Some((DayEntity, id))
    case UpdateSlot(id, _, _) => Some((SlotEntity, id))
    case UpdatePlace(id, _, _, _) => Some((SlotEntity, id))
    case UpdateSelected(id, _, _) => Some((SlotEntity, id))
    case UpdateStatus(id, _, _, _, _) => Some((SlotEntity, id))
    case UpdateOption(id, _, _) => Some((OptionEntity, id))
    case UpdateBudget(id, _, _) => Some((BudgetEntity, id))
    case SoftDelete(table, id, _, _) => Some((table, id))
    case _ => None
  }

  lemma UpdateFinds(stmt: Stmt, fieldsValid: bool, db: Db)
    requires Updated(stmt).Some? ==> Lookup(db.rows, Updated(stmt).value.0, Updated(stmt).value.1).Some?
    ensures Execute(stmt, fieldsValid, db) != Err(NotFound)
  {
  }

  lemma PlanFinds(call: Call, db: Db, plan: Planned)
    requires Plan(call, db) == Ok(plan)
    ensures Updated(plan.stmt).Some? ==> Lookup(db.rows, Updated(plan.stmt).value.0, Updated(plan.stmt).value.1).Some?
  {
  }

  lemma ExecuteFinds(call: Call, db: Db, plan: Planned)
    requires Plan(call, db) == Ok(plan)
    ensures Execute(plan.stmt, call.fieldsValid, db) != Err(NotFound)
  {
    PlanFinds(call, db, plan);
    UpdateFinds(plan.stmt, call.fieldsValid, db);
  }

  lemma DeletionMisses(call: Call, db: Db)
    requires Consistent(db) && call.intent.DeleteOption?
    ensures Atomic(call, db) == RolledBack(NotFound) <==> Missing(call.intent, db) || Orphaned(call, db)
  {
    var id := call.intent.id;
    AtomicUnfolds(call, db);
    WritableIs(db, call.intent, OptionEntity);
    S.DeletionWritten(call, db);
    PlanMisses(call, db);
    if Plan(call, db).Ok? {
      ExecuteFinds(call, db, Plan(call, db).value);
      if Writable(db, OptionEntity, id, call.intent.expected) {
        DeletionMissesLate(call, db);
      }
    }
  }

  lemma DeletionMissesLate(call: Call, db: Db)
    requires Consistent(db) && call.intent.DeleteOption? && Writable(db, OptionEntity, call.intent.id, call.intent.expected)
    ensures Atomic(call, db) == RolledBack(NotFound) <==> Orphaned(call, db)
  {
    var id := call.intent.id;
    WritableIs(db, call.intent, OptionEntity);
    var o := db.rows.options[id];
    if !FreshClientOp(call, db.log) {
      UnfreshDeletion(call, db);
    } else if Writable(db, SlotEntity, o.slotId, None) {
      S.DeleteOptionExactly(call, db);
    } else {
      OrphanedDeletion(call, db);
    }
  }

  /** Its own operation recorded, a deletion has its slot left to look at. */
  lemma DeletionGoesOn(call: Call, db: Db) returns (once: Db)
    requires Consistent(db) && call.intent.DeleteOption? && Writable(db, OptionEntity, call.intent.id, call.intent.expected)
    requires FreshClientOp(call, db.log)
    ensures once.rows.slots == db.rows.slots
    ensures Atomic(call, db) == Completion(call, Clearing(db.rows.options[call.intent.id].slotId, call.intent.id), once)
  {
    WritableIs(db, call.intent, OptionEntity);
    var row := Tombstone(OptionRow(db.rows.options[call.intent.id]), call.now);
    var op := OpOf(call, DraftOf(OptionDelete, call.intent.id, {DeletedAt}, row, true), db.rows.seqno + 1);
    once := Logged(Affect(db, PutRow(call.intent.id, KeptRow(row))), op);
    S.DeletionRecorded(call, db);
    SlotsUntouched(db, call.intent.id, KeptRow(row), op);
  }

  lemma SlotsUntouched(db: Db, id: ID, row: Row, op: Op)
    requires row.OptionRow?
    ensures Logged(Affect(db, PutRow(id, row)), op).rows.slots == db.rows.slots
  {
  }

  lemma OrphanedDeletion(call: Call, db: Db)
    requires Consistent(db) && Orphaned(call, db)
    ensures Atomic(call, db) == RolledBack(NotFound)
  {
    var once := DeletionGoesOn(call, db);
    S.ClearingEnds(call, db.rows.options[call.intent.id].slotId, call.intent.id, once);
  }

  lemma UnfreshDeletion(call: Call, db: Db)
    requires Consistent(db) && call.intent.DeleteOption? && Writable(db, OptionEntity, call.intent.id, call.intent.expected)
    requires !FreshClientOp(call, db.log)
    ensures Atomic(call, db) == RolledBack(AlreadyExists)
  {
    WritableIs(db, call.intent, OptionEntity);
    S.DeletionWritten(call, db);
    AtomicUnfolds(call, db);
    var w := Execute(Plan(call, db).value.stmt, call.fieldsValid, db).value;
    UnfreshRecord(call, db, w, Tombstone(OptionRow(db.rows.options[call.intent.id]), call.now));
  }

  lemma UnfreshRecord(call: Call, db: Db, w: Written, row: Row)
    requires Gapless(db) && row.OptionRow? && !FreshClientOp(call, db.log)
    ensures Completion(call, Allocating(DraftOf(OptionDelete, w.id, {DeletedAt}, row, true)), Affect(db, PutRow(w.id, w.row))) ==
      RolledBack(AlreadyExists)
  {
    RecordedWrite(call, db, w, row, OptionDelete, {DeletedAt});
  }

  /** A call is refused as not found exactly when what it works on or anchors to is missing, or it deletes an option whose slot
      has been deleted. */
  lemma NotFoundExactly(call: Call, db: Db)
    requires Consistent(db)
    ensures Atomic(call, db) == RolledBack(NotFound) <==>
      Refusal(call.intent).None? && (Missing(call.intent, db) || Orphaned(call, db))
  {
    if call.intent.DeleteOption? {
      DeletionMisses(call, db);
    } else if Refusal(call.intent).None? {
      AtomicUnfolds(call, db);
      PlanMisses(call, db);
      if Plan(call, db).Ok? {
        var plan := Plan(call, db).value;
        ExecuteFinds(call, db, plan);
        if Execute(plan.stmt, call.fieldsValid, db).Ok? {
          X.RecordsAndEnds(call, db, plan, Execute(plan.stmt, call.fieldsValid, db).value);
        }
      }
    }
  }
}
