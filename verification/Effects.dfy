/** What a committed call does, said of the call and the rows alone: when each kind of call commits, what it leaves in the row it
    is about, and which operations it logs (internal/service day.go, slot.go, option.go, vote.go, budget.go, oplog.go). */
module Effects {
  import opened Outcomes
  import opened ByteOrder
  import opened Domain
  import opened Folding
  import opened Tables
  import opened Ledger
  import opened Writes
  import opened Convergence
  import opened Transactions
  import opened Merging
  import S = Selections
  import X = Exactness

  // ----- the vocabulary of the log -----

  /** The kind of operation each call logs. */
  function KindFor(intent: Intent): OpKind {
    match intent
    case CreateDay(_, _, _, _) => DayCreate
    case EditDay(_, _, _, _, _) => DayEdit
    case MoveDay(_, _, _) => DayMove
    case DeleteDay(_, _) => DayDelete
    case CreateSlot(_, _, _, _) => SlotCreate
    case EditSlot(_, _, _, _) => SlotEdit
    case MoveSlot(_, _, _, _) => SlotMove
    case SelectOption(_, _, _) => SlotSelectOption
    case SetStatus(_, _, _) => SlotSetStatus
    case DeleteSlot(_, _) => SlotDelete
    case CreateOption(_, _, _) => OptionCreate
    case EditOption(_, _, _, _) => OptionEdit
    case DeleteOption(_, _) => OptionDelete
    case CastVote(_, _, _) => VoteSet
    case CreateBudget(_, _) | EditBudget(_, _, _) => BudgetSet
    case DeleteBudget(_, _) => BudgetDelete
  }

  const DAY_EDITS: FieldMask := {Date, Label}
  const SLOT_EDITS: FieldMask := {KindOf, Title, Notes, StartTime, EndTime}
  const OPTION_EDITS: FieldMask := {Title, Notes, ExternalURL, EstimatedCost, PlaceName, PlaceAddress, PlaceLat, PlaceLng,
                                    PlaceProviderID}

  function OrAll(fields: FieldMask, all: FieldMask): FieldMask {
    if fields == {} then all else fields
  }

  /** The fields it names. */
  function NamedFields(intent: Intent): FieldMask {
    match intent
    case CreateDay(_, _, _, _) => {Date, Label, Position}
    case EditDay(_, fields, _, _, _) => OrAll(fields, DAY_EDITS)
    case MoveDay(_, _, _) => {Position}
    case CreateSlot(_, _, _, _) => {DayID, KindOf, Title, Notes, StartTime, EndTime, Position, Status}
    case EditSlot(_, fields, _, _) => OrAll(fields, SLOT_EDITS)
    case MoveSlot(_, _, _, _) => {DayID, Position}
    case SelectOption(_, _, _) => {SelectedOptionID}
    case SetStatus(_, _, _) => {Status, StatusChangedAt, StatusChangedBy}
    case CreateOption(_, _, _) => {SlotID} + OPTION_EDITS
    case EditOption(_, fields, _, _) => OrAll(fields, OPTION_EDITS)
    case CastVote(_, _, _) => {SlotID, UserID, OptionID}
    case CreateBudget(_, _) | EditBudget(_, _, _) =>
      {Label, Category, AmountMinor, SlotOptionID, PaidBy, IncurredOn, Splits}
    case DeleteDay(_, _) | DeleteSlot(_, _) | DeleteOption(_, _) | DeleteBudget(_, _) => {DeletedAt}
  }

  // ----- what is left in the row -----

  predicate IsVoteOf(v: Vote, slotId: ID, user: ID) {
    v.slotId == slotId && v.userId == user
  }

  /** The member has voted on the slot. */
  ghost predicate HasVoted(db: Db, slotId: ID, user: ID) {
    exists v :: v in db.rows.votes && IsVoteOf(db.rows.votes[v], slotId, user)
  }

  /** The row a call is about: a member's vote on a slot keeps the id it was first cast with. */
  function TargetOf(call: Call, db: Db): ID {
    if call.intent.CastVote? && (call.intent.slotId, call.actor) in db.ballots
    then db.ballots[(call.intent.slotId, call.actor)] else call.intent.id
  }

  /** A ledger entry holds what it was given, its splits in user order. */
  predicate HoldsEntry(e: Budget, given: BudgetContent) {
    && e.caption == given.caption && e.category == given.category && e.amount == given.amount
    && e.slotOptionId == given.slotOptionId && e.paidBy == given.paidBy && e.incurredOn == given.incurredOn
    && multiset(e.splits) == multiset(given.splits) && InUserOrder(e.splits)
  }

  predicate HoldsSlot(s: Slot, given: SlotContent) {
    s.kind == given.kind && s.title == given.title && s.notes == given.notes
    && s.startTime == given.startTime && s.endTime == given.endTime
  }

  predicate HoldsOption(o: SlotOption, given: OptionContent) {
    && o.title == given.title && o.notes == given.notes && o.url == given.url && o.cost == given.cost
    && o.placeName == given.placeName && o.placeAddress == given.placeAddress
    && o.lat == given.lat && o.lng == given.lng && o.providerId == given.providerId
  }

  /** A day, after a call about it. */
  predicate LeavesDay(call: Call, was: Option<Day>, d: Day) {
    match call.intent
    case CreateDay(_, date, caption, _) =>
      was.None? && d.date == date && d.caption == caption && d.version == 1 && d.deletedAt.None?
    case EditDay(_, fields, date, caption, _) =>
      was.Some? && d == was.value.(date := if Date in NamedFields(call.intent) then date else was.value.date,
                                   caption := if Label in NamedFields(call.intent) then caption else was.value.caption,
                                   version := was.value.version + 1)
    case MoveDay(_, _, _) => was.Some? && d == was.value.(position := d.position, version := was.value.version + 1)
    case DeleteDay(_, _) =>
      was.Some? && d == was.value.(deletedAt := Some(ToMicro(call.now)), version := was.value.version + 1)
    case _ => false
  }

  /** A slot, after a call about it. */
  predicate LeavesSlot(call: Call, was: Option<Slot>, s: Slot) {
    match call.intent
    case CreateSlot(_, dayId, given, _) =>
      && was.None? && s.dayId == dayId && HoldsSlot(s, given) && s.status == PLANNED && s.createdBy == Some(call.actor)
      && s.selected.None? && s.changedAt.None? && s.changedBy.None? && s.version == 1 && s.deletedAt.None?
    case EditSlot(_, _, given, _) =>
      && was.Some? && s == was.value.(kind := s.kind, title := s.title, notes := s.notes, startTime := s.startTime,
                                      endTime := s.endTime, version := was.value.version + 1)
      && HoldsSlot(s, MergeSlot(was.value, NamedFields(call.intent), given))
    case MoveSlot(_, dayId, _, _) =>
      was.Some? && s == was.value.(dayId := dayId, position := s.position, version := was.value.version + 1)
    case SelectOption(_, selected, _) =>
      was.Some? && s == was.value.(selected := selected, version := was.value.version + 1)
    case SetStatus(_, status, _) =>
      was.Some? && s == was.value.(status := status, changedAt := Some(ToMicro(call.now)), changedBy := Some(call.actor),
                                   version := was.value.version + 1)
    case DeleteSlot(_, _) =>
      was.Some? && s == was.value.(deletedAt := Some(ToMicro(call.now)), version := was.value.version + 1)
    case _ => false
  }

  /** An option, after a call about it. */
  predicate LeavesOption(call: Call, was: Option<SlotOption>, o: SlotOption) {
    match call.intent
    case CreateOption(_, slotId, given) =>
      && was.None? && o.slotId == slotId && HoldsOption(o, given) && o.proposedBy == Some(call.actor)
      && o.version == 1 && o.deletedAt.None?
    case EditOption(_, _, given, _) =>
      && was.Some? && o == WithContent(was.value, MergeOption(was.value, NamedFields(call.intent), given)).(version := o.version)
      && o.version == was.value.version + 1
    case DeleteOption(_, _) =>
      was.Some? && o == was.value.(deletedAt := Some(ToMicro(call.now)), version := was.value.version + 1)
    case _ => false
  }

  /** A vote, after a call about it: the choice is the one just made. */
  predicate LeavesVote(call: Call, was: Option<Vote>, v: Vote) {
    match call.intent
    case CastVote(_, slotId, choice) =>
      && IsVoteOf(v, slotId, call.actor) && v.optionId == choice
      && v.version == (if was.Some? then was.value.version + 1 else 1)
      && (was.Some? ==> IsVoteOf(was.value, slotId, call.actor))
    case _ => false
  }

  /** A ledger entry, after a call about it. */
  predicate LeavesEntry(call: Call, was: Option<Budget>, e: Budget) {
    match call.intent
    case CreateBudget(_, given) =>
      was.None? && HoldsEntry(e, given) && e.createdBy == Some(call.actor) && e.version == 1 && e.deletedAt.None?
    case EditBudget(_, given, _) =>
      was.Some? && HoldsEntry(e, given) && e.createdBy == was.value.createdBy && e.version == was.value.version + 1
      && e.deletedAt.None?
    case DeleteBudget(_, _) =>
      was.Some? && e == was.value.(deletedAt := Some(ToMicro(call.now)), version := was.value.version + 1)
    case _ => false
  }

  function OldDay(was: Option<Row>): Option<Day> {
    if was.Some? && was.value.DayRow? then Some(was.value.day) else None
  }

  function OldSlot(was: Option<Row>): Option<Slot> {
    if was.Some? && was.value.SlotRow? then Some(was.value.slot) else None
  }

  function OldOption(was: Option<Row>): Option<SlotOption> {
    if was.Some? && was.value.OptionRow? then Some(was.value.option) else None
  }

  function OldVote(was: Option<Row>): Option<Vote> {
    if was.Some? && was.value.VoteRow? then Some(was.value.vote) else None
  }

  function OldEntry(was: Option<Row>): Option<Budget> {
    if was.Some? && was.value.BudgetRow? then Some(was.value.entry) else None
  }

  predicate Leaves(call: Call, was: Option<Row>, row: Row) {
    match row
    case DayRow(d) => LeavesDay(call, OldDay(was), d)
    case SlotRow(s) => LeavesSlot(call, OldSlot(was), s)
    case OptionRow(o) => LeavesOption(call, OldOption(was), o)
    case VoteRow(v) => LeavesVote(call, OldVote(was), v)
    case BudgetRow(e) => LeavesEntry(call, OldEntry(was), e)
  }

  lemma ExecuteLeavesDay(call: Call, db: Db, plan: Planned, w: Written)
    requires Refusal(call.intent).None? && TargetTable(call.intent).DayEntity?
    requires Plan(call, db) == Ok(plan) && Execute(plan.stmt, call.fieldsValid, db) == Ok(w)
    ensures w.id == call.intent.id && w.row.DayRow? && Leaves(call, Lookup(db.rows, DayEntity, w.id), w.row)
  {
  }

  lemma ExecuteLeavesSlot(call: Call, db: Db, plan: Planned, w: Written)
    requires Refusal(call.intent).None? && TargetTable(call.intent).SlotEntity?
    requires Plan(call, db) == Ok(plan) && Execute(plan.stmt, call.fieldsValid, db) == Ok(w)
    ensures w.id == call.intent.id && w.row.SlotRow? && Leaves(call, Lookup(db.rows, SlotEntity, w.id), w.row)
  {
  }

  lemma ExecuteLeavesOption(call: Call, db: Db, plan: Planned, w: Written)
    requires Refusal(call.intent).None? && TargetTable(call.intent).OptionEntity?
    requires Plan(call, db) == Ok(plan) && Execute(plan.stmt, call.fieldsValid, db) == Ok(w)
    ensures w.id == call.intent.id && w.row.OptionRow? && Leaves(call, Lookup(db.rows, OptionEntity, w.id), w.row)
  {
  }

  lemma ExecuteLeavesVote(call: Call, db: Db, plan: Planned, w: Written)
    requires BallotsMatch(db) && call.intent.CastVote?
    requires Plan(call, db) == Ok(plan) && Execute(plan.stmt, call.fieldsValid, db) == Ok(w)
    ensures w.id == TargetOf(call, db) && w.row.VoteRow? && Leaves(call, Lookup(db.rows, VoteEntity, w.id), w.row)
  {
  }

  lemma ExecuteLeavesEntry(call: Call, db: Db, plan: Planned, w: Written)
    requires Refusal(call.intent).None? && TargetTable(call.intent).BudgetEntity?
    requires Plan(call, db) == Ok(plan) && Execute(plan.stmt, call.fieldsValid, db) == Ok(w)
    ensures w.id == call.intent.id && w.row.BudgetRow? && Leaves(call, Lookup(db.rows, BudgetEntity, w.id), w.row)
  {
    if !call.intent.DeleteBudget? {
      SortedIsPermutation(call.intent.entry.splits);
    }
  }

  lemma ExecuteLeaves(call: Call, db: Db, plan: Planned, w: Written)
    requires Consistent(db) && Refusal(call.intent).None?
    requires Plan(call, db) == Ok(plan) && Execute(plan.stmt, call.fieldsValid, db) == Ok(w)
    ensures w.id == TargetOf(call, db) && TableOf(w.row) == TargetTable(call.intent)
    ensures Leaves(call, Lookup(db.rows, TableOf(w.row), w.id), w.row)
  {
    match TargetTable(call.intent)
    case DayEntity => ExecuteLeavesDay(call, db, plan, w);
    case SlotEntity => ExecuteLeavesSlot(call, db, plan, w);
    case OptionEntity => ExecuteLeavesOption(call, db, plan, w);
    case VoteEntity => ExecuteLeavesVote(call, db, plan, w);
    case BudgetEntity => ExecuteLeavesEntry(call, db, plan, w);
  }

  /** after has one row other than before does, and it is what the call leaves. */
  ghost predicate LeavesOnly(call: Call, before: Replica, after: Replica, id: ID) {
    var e := TargetTable(call.intent);
    && Lookup(after, e, id).Some? && Leaves(call, Lookup(before, e, id), Lookup(after, e, id).value)
    && forall e', id' :: e' != e || id' != id ==> Lookup(after, e', id') == Lookup(before, e', id')
  }

  lemma PutLeavesOthers(r: Replica, id: ID, row: Row, seqno: nat)
    ensures var after := Put(r, id, row).(seqno := seqno);
      && Lookup(after, TableOf(row), id) == Some(row)
      && forall e', id' :: e' != TableOf(row) || id' != id ==> Lookup(after, e', id') == Lookup(r, e', id')
  {
  }

  /** Every committed call leaves its row as the call says, field by field, and every other row as it was. An option's deletion
      may go on to clear its slot's selection, which Selections.DeleteOptionExactly states. */
  lemma CommittedLeaves(call: Call, db: Db)
    requires Consistent(db) && !call.intent.DeleteOption? && Atomic(call, db).Committed?
    ensures LeavesOnly(call, db.rows, Atomic(call, db).db.rows, TargetOf(call, db))
  {
    X.CommitsExactly(call, db);
    var plan := Plan(call, db).value;
    var w := Execute(plan.stmt, call.fieldsValid, db).value;
    ExecuteLeaves(call, db, plan, w);
    PutLeavesOthers(db.rows, w.id, w.row, db.rows.seqno + 1);
  }

  // ----- what is logged -----

  /** The operation a call logs for the row it leaves: whose it is, what it names, and each field as the row shows it. A
      deletion is logged with the instant itself, of which the row keeps the microseconds. */
  predicate Records(call: Call, op: Op, seqno: nat, id: ID, row: Row) {
    && op.seqno == seqno && op.actor == Some(call.actor) && op.clientOp == call.clientOp && op.causeOp == call.causeOp
    && op.kind == KindFor(call.intent) && op.entity == id && op.version == Version(row)
    && op.fields == NamedFields(call.intent) && op.payload.Keys == NamedFields(call.intent)
    && forall f :: f in NamedFields(call.intent) ==>
         Some(op.payload[f]) == if f == DeletedAt then Some(Stamp(Some(call.now))) else Column(row, f)
  }

  lemma PlanNames(call: Call, db: Db, plan: Planned)
    requires Plan(call, db) == Ok(plan)
    ensures plan.kind == KindFor(call.intent) && plan.mask == NamedFields(call.intent)
    ensures plan.source.Deleted? <==> X.IsDelete(call.intent)
  {
  }

  lemma OnlyDeletionsNameIt(intent: Intent)
    requires Refusal(intent).None?
    ensures DeletedAt in NamedFields(intent) <==> X.IsDelete(intent)
  {
  }

  lemma RecordedVersion(call: Call, db: Db, plan: Planned, w: Written)
    requires Plan(call, db) == Ok(plan) && Execute(plan.stmt, call.fieldsValid, db) == Ok(w)
    ensures Version(Recorded(plan, w)) == Version(w.row)
    ensures X.IsDelete(call.intent) ==> Column(Recorded(plan, w), DeletedAt) == Some(Stamp(Some(call.now)))
    ensures !X.IsDelete(call.intent) ==> Recorded(plan, w) == w.row
  {
    PlanNames(call, db, plan);
    if X.IsDelete(call.intent) {
      X.PlannedTombstone(call, db, plan);
      DeletedVersion(call, db, plan, w);
    }
  }

  lemma DeletedVersion(call: Call, db: Db, plan: Planned, w: Written)
    requires X.IsDelete(call.intent)
    requires Plan(call, db) == Ok(plan) && Execute(plan.stmt, call.fieldsValid, db) == Ok(w)
    ensures Version(Recorded(plan, w)) == Version(w.row)
  {
  }

  lemma FirstOpRecords(call: Call, db: Db, plan: Planned, w: Written, seqno: nat)
    requires Consistent(db) && Refusal(call.intent).None?
    requires Plan(call, db) == Ok(plan) && Execute(plan.stmt, call.fieldsValid, db) == Ok(w)
    ensures PayloadOf(Recorded(plan, w), plan.mask).Some?
    ensures Records(call, X.FirstOp(call, plan, w, seqno), seqno, TargetOf(call, db), w.row)
  {
    X.FirstOpShows(call, db, plan, w, seqno);
    ExecuteLeaves(call, db, plan, w);
    PlanNames(call, db, plan);
    RecordedVersion(call, db, plan, w);
    ShownIsRecorded(call, X.FirstOp(call, plan, w, seqno), seqno, w.id, w.row, Recorded(plan, w));
  }

  lemma ShownIsRecorded(call: Call, op: Op, seqno: nat, id: ID, row: Row, shown: Row)
    requires Refusal(call.intent).None?
    requires op.seqno == seqno && op.actor == Some(call.actor) && op.clientOp == call.clientOp && op.causeOp == call.causeOp
    requires op.kind == KindFor(call.intent) && op.entity == id && op.version == Version(shown) == Version(row)
    requires op.fields == op.payload.Keys == NamedFields(call.intent)
    requires forall f :: f in NamedFields(call.intent) ==> Column(shown, f) == Some(op.payload[f])
    requires if X.IsDelete(call.intent) then Column(shown, DeletedAt) == Some(Stamp(Some(call.now))) else shown == row
    ensures Records(call, op, seqno, id, row)
  {
    OnlyDeletionsNameIt(call.intent);
    assert X.IsDelete(call.intent) ==> NamedFields(call.intent) == {DeletedAt};
  }

  /** A committed call logs one operation, which records the row it leaves; an option's deletion may log a second. */
  lemma CommittedRecords(call: Call, db: Db)
    requires Consistent(db) && !call.intent.DeleteOption? && Atomic(call, db).Committed?
    ensures var after, id := Atomic(call, db).db, TargetOf(call, db);
      && |after.log| == |db.log| + 1 && after.log == db.log + [after.log[|db.log|]]
      && Lookup(after.rows, TargetTable(call.intent), id).Some?
      && Records(call, after.log[|db.log|], |db.log| + 1, id, Lookup(after.rows, TargetTable(call.intent), id).value)
  {
    X.CommitsExactly(call, db);
    var plan := Plan(call, db).value;
    var w := Execute(plan.stmt, call.fieldsValid, db).value;
    X.RecordsAndEnds(call, db, plan, w);
    X.LoggedShape(db, w, X.FirstOp(call, plan, w, db.rows.seqno + 1));
    FirstOpRecords(call, db, plan, w, db.rows.seqno + 1);
    ExecuteLeaves(call, db, plan, w);
    PutLeavesOthers(db.rows, w.id, w.row, db.rows.seqno + 1);
  }

  // ----- the option deletion's log -----

  /** The operation that clears a slot's selection: the deletion's author and cause, but no client id of its own. */
  predicate Clears(call: Call, op: Op, seqno: nat, slotId: ID, version: nat) {
    && op.seqno == seqno && op.actor == Some(call.actor) && op.clientOp.None? && op.causeOp == call.causeOp
    && op.kind == SlotSelectOption && op.entity == slotId && op.version == version
    && op.fields == {SelectedOptionID} && op.payload == map[SelectedOptionID := Ref(None)]
  }

  lemma DeletionFirst(call: Call, db: Db)
    requires Consistent(db) && call.intent.DeleteOption? && Atomic(call, db).Committed?
    ensures var log, id := Atomic(call, db).db.log, call.intent.id;
      && |log| > |db.log| && db.log <= log
      && id in db.rows.options
      && Records(call, log[|db.log|], |db.log| + 1, id, Tombstone(OptionRow(db.rows.options[id]), ToMicro(call.now)))
  {
    X.CommittedPlans(call, db);
    var plan := Plan(call, db).value;
    var w := Execute(plan.stmt, call.fieldsValid, db).value;
    X.CommittedFirstOp(call, db, plan, w);
    FirstOpRecords(call, db, plan, w, db.rows.seqno + 1);
    DeletionWrites(call, db, plan, w);
    var op, log := X.FirstOp(call, plan, w, db.rows.seqno + 1), Atomic(call, db).db.log;
    assert (db.log + [op])[|db.log|] == op;
    assert db.log <= db.log + [op];
  }

  lemma DeletionWrites(call: Call, db: Db, plan: Planned, w: Written)
    requires call.intent.DeleteOption?
    requires Plan(call, db) == Ok(plan) && Execute(plan.stmt, call.fieldsValid, db) == Ok(w)
    ensures var id := call.intent.id;
      w.id == id && id in db.rows.options && w.row == Tombstone(OptionRow(db.rows.options[id]), ToMicro(call.now))
  {
  }

  lemma UnselectedPayload(s: Slot)
    ensures PayloadOf(SlotRow(S.Unselected(s)), {SelectedOptionID}) == Some(map[SelectedOptionID := Ref(None)])
  {
    var row := SlotRow(S.Unselected(s));
    PayloadExists(row, {SelectedOptionID});
    var payload := PayloadOf(row, {SelectedOptionID}).value;
    assert SelectedOptionID in payload.Keys && Column(row, SelectedOptionID) == Some(payload[SelectedOptionID]);
    assert payload[SelectedOptionID] == Ref(None);
    assert payload.Keys == map[SelectedOptionID := Ref(None)].Keys;
    assert payload == map[SelectedOptionID := Ref(None)];
  }

  lemma ClearingClears(call: Call, slotId: ID, option: ID, once: Db)
    requires Gapless(once) && slotId in once.rows.slots && once.rows.slots[slotId].deletedAt.None?
    requires once.rows.slots[slotId].selected == Some(option)
    ensures var end := Completion(call, Clearing(slotId, option), once);
      && end.Committed? && |end.db.log| == |once.log| + 1
      && Clears(call, end.db.log[|once.log|], |once.log| + 1, slotId, once.rows.slots[slotId].version + 1)
  {
    S.ClearingUnselects(call, slotId, option, once);
    UnselectedPayload(once.rows.slots[slotId]);
  }

  lemma DeletionSecond(call: Call, db: Db)
    requires Consistent(db) && call.intent.DeleteOption? && Atomic(call, db).Committed?
    requires call.intent.id in db.rows.options
    requires var o := db.rows.options[call.intent.id]; o.slotId in db.rows.slots && db.rows.slots[o.slotId].selected == Some(call.intent.id)
    ensures var log, slotId := Atomic(call, db).db.log, db.rows.options[call.intent.id].slotId;
      |log| == |db.log| + 2 && Clears(call, log[|db.log| + 1], |db.log| + 2, slotId, db.rows.slots[slotId].version + 1)
  {
    var id := call.intent.id;
    var o := db.rows.options[id];
    S.DeleteOptionExactly(call, db);
    S.DeletionRecorded(call, db);
    var row := Tombstone(OptionRow(o), call.now);
    var op := OpOf(call, DraftOf(OptionDelete, id, {DeletedAt}, row, true), db.rows.seqno + 1);
    TombstoneKept(OptionRow(o), call.now);
    S.DeletedOnce(db, id, ToMicro(call.now), op);
    ClearingClears(call, o.slotId, id, Logged(Affect(db, PutRow(id, KeptRow(row))), op));
  }

  /** A committed option deletion logs the deletion, and the cleared selection exactly when the option was its slot's. */
  lemma DeletionRecords(call: Call, db: Db)
    requires Consistent(db) && call.intent.DeleteOption? && Atomic(call, db).Committed?
    ensures var log, id := Atomic(call, db).db.log, call.intent.id;
      && id in db.rows.options && |log| > |db.log| && db.log <= log
      && Records(call, log[|db.log|], |db.log| + 1, id, Tombstone(OptionRow(db.rows.options[id]), ToMicro(call.now)))
      && var slotId := db.rows.options[id].slotId;
         && slotId in db.rows.slots
         && (if db.rows.slots[slotId].selected == Some(id) then
               |log| == |db.log| + 2
               && Clears(call, log[|db.log| + 1], |db.log| + 2, slotId, db.rows.slots[slotId].version + 1)
             else |log| == |db.log| + 1)
  {
    DeletionFirst(call, db);
    S.DeleteOptionExactly(call, db);
    if db.rows.slots[db.rows.options[call.intent.id].slotId].selected == Some(call.intent.id) {
      DeletionSecond(call, db);
    }
  }
}
