/** A planning write, statement by statement (internal/service/oplog.go, day.go, slot.go, option.go, vote.go, budget.go
    over the SQL of internal/repository). The statements of one write run in order on the transaction's view of the
    database; each reads that view and has at most one effect on it. */
module Writes {
  import opened Outcomes
  import opened ByteOrder
  import FracKeys
  import FracIntegers
  import opened Domain
  import opened Folding
  import opened Tables
  import opened Placement
  import opened Ledger

  /** One trip's rows, with trips.op_seq as their seqno; its operation log; and the (slot, user) index over votes. */
  datatype Db = Db(rows: Replica, log: seq<Op>, ballots: map<(ID, ID), ID>)

  const EMPTY_DB := Db(EMPTY, [], map[])

  datatype DbError =
    | NotFound | VersionConflict | AlreadyExists | Invalid | NoEncoder
    | BadKey(why: FracIntegers.KeyError)

  // ----- requests -----

  datatype SlotContent = SlotContent(kind: Str, title: Str, notes: Str, startTime: Option<nat>, endTime: Option<nat>)

  datatype OptionContent = OptionContent(title: Str, notes: Str, url: Str, cost: Option<int>, placeName: Str,
                                         placeAddress: Str, lat: Option<real>, lng: Option<real>, providerId: Str)

  datatype BudgetContent = BudgetContent(caption: Str, category: Str, amount: int, slotOptionId: Option<ID>,
                                         paidBy: Option<ID>, incurredOn: Option<Time>, splits: seq<Split>)

  datatype Intent =
    | CreateDay(id: ID, date: Option<Time>, caption: Str, after: Option<ID>)
    | EditDay(id: ID, fields: FieldMask, date: Option<Time>, caption: Str, expected: Option<nat>)
    | MoveDay(id: ID, after: Option<ID>, expected: Option<nat>)
    | DeleteDay(id: ID, expected: Option<nat>)
    | CreateSlot(id: ID, dayId: Option<ID>, slot: SlotContent, after: Option<ID>)
    | EditSlot(id: ID, fields: FieldMask, slot: SlotContent, expected: Option<nat>)
    | MoveSlot(id: ID, dayId: Option<ID>, after: Option<ID>, expected: Option<nat>)
    | SelectOption(id: ID, selected: Option<ID>, expected: Option<nat>)
    | SetStatus(id: ID, status: Str, expected: Option<nat>)
    | DeleteSlot(id: ID, expected: Option<nat>)
    | CreateOption(id: ID, slotId: ID, option: OptionContent)
    | EditOption(id: ID, fields: FieldMask, option: OptionContent, expected: Option<nat>)
    | DeleteOption(id: ID, expected: Option<nat>)
    | CastVote(id: ID, slotId: ID, choice: Option<ID>)
    | CreateBudget(id: ID, entry: BudgetContent)
    | EditBudget(id: ID, entry: BudgetContent, expected: Option<nat>)
    | DeleteBudget(id: ID, expected: Option<nat>)

  /** One service call. fieldsValid is the verdict of the plain field validators and CHECK constraints on the row the
      call would write; members is the membership list the ledger consults. A fresh id has already been chosen. */
  datatype Call = Call(actor: ID, now: Time, clientOp: Option<ID>, causeOp: Option<ID>, fieldsValid: bool,
                       members: set<ID>, intent: Intent)

  /** What the services refuse before they open a transaction: an unusable mask, and a ledger write with no version. */
  function Refusal(intent: Intent): Option<DbError> {
    match intent
    case EditDay(_, fields, _, _, _) => if MaskValid(MaskFor(DayEdit, fields), DayEdit) then None else Some(Invalid)
    case EditSlot(_, fields, _, _) => if MaskValid(MaskFor(SlotEdit, fields), SlotEdit) then None else Some(Invalid)
    case EditOption(_, fields, _, _) => if MaskValid(MaskFor(OptionEdit, fields), OptionEdit) then None else Some(Invalid)
    case EditBudget(_, _, expected) => if expected.Some? then None else Some(Invalid)
    case DeleteBudget(_, expected) => if expected.Some? then None else Some(Invalid)
    case _ => None
  }

  // ----- writing statements -----

  datatype Stmt =
    | InsertDay(id: ID, date: Option<Time>, caption: Str, position: Str)
    | UpdateDay(id: ID, date: Option<Time>, caption: Str, position: Str, version: nat)
    | InsertSlot(id: ID, dayId: Option<ID>, slot: SlotContent, position: Str, createdBy: Option<ID>)
    | UpdateSlot(id: ID, slot: SlotContent, version: nat)
    | UpdatePlace(id: ID, dayId: Option<ID>, position: Str, version: nat)
    | UpdateSelected(id: ID, selected: Option<ID>, version: nat)
    | UpdateStatus(id: ID, status: Str, at: Time, who: ID, version: nat)
    | InsertOption(id: ID, slotId: ID, option: OptionContent, proposedBy: ID)
    | UpdateOption(id: ID, option: OptionContent, version: nat)
    | UpsertVote(id: ID, slotId: ID, userId: ID, choice: Option<ID>)
    | InsertBudget(id: ID, entry: BudgetContent, createdBy: Option<ID>)
    | UpdateBudget(id: ID, entry: BudgetContent, version: nat)
    | SoftDelete(table: Entity, id: ID, at: Time, version: nat)

  const PLANNED: Str := [112, 108, 97, 110, 110, 101, 100]

  function DeletedAtOf(row: Row): Option<Time> {
    match row
    case DayRow(d) => d.deletedAt
    case SlotRow(s) => s.deletedAt
    case OptionRow(o) => o.deletedAt
    case VoteRow(_) => None
    case BudgetRow(e) => e.deletedAt
  }

  /** The row a delete works out, or leaves, at an instant. */
  function Tombstone(row: Row, at: Time): Row {
    match row
    case DayRow(d) => DayRow(d.(deletedAt := Some(at), version := d.version + 1))
    case SlotRow(s) => SlotRow(s.(deletedAt := Some(at), version := s.version + 1))
    case OptionRow(o) => OptionRow(o.(deletedAt := Some(at), version := o.version + 1))
    case VoteRow(v) => VoteRow(v)
    case BudgetRow(e) => BudgetRow(e.(deletedAt := Some(at), version := e.version + 1))
  }

  /** WHERE id = .. AND version = .. AND deleted_at IS NULL, with the follow-up that tells a missing row from a stale
      version: a tombstone counts as there. */
  function Guarded(db: Db, e: Entity, id: ID, version: nat): (r: Result<Row, DbError>)
    ensures r.Ok? ==> TableOf(r.value) == e && Lookup(db.rows, e, id) == Some(r.value)
    ensures r.Ok? ==> Version(r.value) == version && DeletedAtOf(r.value).None?
  {
    match Lookup(db.rows, e, id)
    case None => Err(NotFound)
    case Some(row) => if Version(row) == version && DeletedAtOf(row).None? then Ok(row) else Err(VersionConflict)
  }

  /** position_len: between 1 and 128 characters. */
  predicate PositionFits(position: Str) {
    1 <= |position| <= 128
  }

  /** The unique index over the dates of live days. */
  predicate DateFree(db: Db, id: ID, date: Option<Time>) {
    date.Some? ==>
      forall other :: other in db.rows.days && other != id && db.rows.days[other].deletedAt.None?
                      ==> db.rows.days[other].date != date
  }

  predicate DayExists(db: Db, dayId: Option<ID>) {
    dayId.Some? ==> dayId.value in db.rows.days
  }

  /** The composite foreign keys: the option belongs to that slot. */
  predicate OptionOfSlot(db: Db, choice: Option<ID>, slotId: ID) {
    choice.Some? ==> choice.value in db.rows.options && db.rows.options[choice.value].slotId == slotId
  }

  predicate OptionExists(db: Db, choice: Option<ID>) {
    choice.Some? ==> choice.value in db.rows.options
  }

  function BudgetFrom(entry: BudgetContent, createdBy: Option<ID>, version: nat): Budget {
    Budget(entry.caption, entry.category, entry.amount, entry.slotOptionId, entry.paidBy, entry.incurredOn,
           SortedSplits(entry.splits), createdBy, version, None)
  }

  datatype Written = Written(id: ID, row: Row)

  /** The row a writing statement leaves, or why it is refused. */
  function Execute(stmt: Stmt, fieldsValid: bool, db: Db): Result<Written, DbError> {
    match stmt
    case InsertDay(id, date, caption, position) =>
      if id in db.rows.days then Err(AlreadyExists)
      else if !fieldsValid || !PositionFits(position) || !DateFree(db, id, date) then Err(Invalid)
      else Ok(Written(id, DayRow(Day(date, caption, position, 1, None))))
    case UpdateDay(id, date, caption, position, version) =>
      var row :- Guarded(db, DayEntity, id, version);
      if !fieldsValid || !PositionFits(position) || !DateFree(db, id, date) then Err(Invalid)
      else Ok(Written(id, DayRow(row.day.(date := date, caption := caption, position := position, version := version + 1))))
    case InsertSlot(id, dayId, slot, position, createdBy) =>
      if id in db.rows.slots then Err(AlreadyExists)
      else if !fieldsValid || !PositionFits(position) || !DayExists(db, dayId) then Err(Invalid)
      else Ok(Written(id, SlotRow(Slot(dayId, slot.kind, slot.title, slot.notes, slot.startTime, slot.endTime, position,
                                       None, PLANNED, None, None, createdBy, 1, None))))
    case UpdateSlot(id, slot, version) =>
      var row :- Guarded(db, SlotEntity, id, version);
      if !fieldsValid then Err(Invalid)
      else Ok(Written(id, SlotRow(row.slot.(kind := slot.kind, title := slot.title, notes := slot.notes,
                                            startTime := slot.startTime, endTime := slot.endTime, version := version + 1))))
    case UpdatePlace(id, dayId, position, version) =>
      var row :- Guarded(db, SlotEntity, id, version);
      if !PositionFits(position) || !DayExists(db, dayId) then Err(Invalid)
      else Ok(Written(id, SlotRow(row.slot.(dayId := dayId, position := position, version := version + 1))))
    case UpdateSelected(id, selected, version) =>
      var row :- Guarded(db, SlotEntity, id, version);
      if !OptionOfSlot(db, selected, id) then Err(Invalid)
      else Ok(Written(id, SlotRow(row.slot.(selected := selected, version := version + 1))))
    case UpdateStatus(id, status, at, who, version) =>
      var row :- Guarded(db, SlotEntity, id, version);
      if !fieldsValid then Err(Invalid)
      else Ok(Written(id, SlotRow(row.slot.(status := status, changedAt := Some(ToMicro(at)), changedBy := Some(who),
                                            version := version + 1))))
    case InsertOption(id, slotId, option, proposedBy) =>
      if id in db.rows.options then Err(AlreadyExists)
      else if !fieldsValid || slotId !in db.rows.slots then Err(Invalid)
      else Ok(Written(id, OptionRow(SlotOption(slotId, option.title, option.notes, option.url, option.cost,
                                               option.placeName, option.placeAddress, option.lat, option.lng,
                                               option.providerId, Some(proposedBy), 1, None))))
    case UpdateOption(id, option, version) =>
      var row :- Guarded(db, OptionEntity, id, version);
      if !fieldsValid then Err(Invalid)
      else Ok(Written(id, OptionRow(row.option.(title := option.title, notes := option.notes, url := option.url,
                                                cost := option.cost, placeName := option.placeName,
                                                placeAddress := option.placeAddress, lat := option.lat, lng := option.lng,
                                                providerId := option.providerId, version := version + 1))))
    case UpsertVote(id, slotId, userId, choice) =>
      if !fieldsValid || !OptionOfSlot(db, choice, slotId) then Err(Invalid)
      else if (slotId, userId) in db.ballots && db.ballots[(slotId, userId)] in db.rows.votes then
        var kept := db.ballots[(slotId, userId)];
        var vote := db.rows.votes[kept];
        Ok(Written(kept, VoteRow(vote.(optionId := choice, version := vote.version + 1))))
      else if id in db.rows.votes then Err(AlreadyExists)
      else Ok(Written(id, VoteRow(Vote(slotId, userId, choice, 1))))
    case InsertBudget(id, entry, createdBy) =>
      if id in db.rows.budgets then Err(AlreadyExists)
      else if !fieldsValid || !OptionExists(db, entry.slotOptionId) then Err(Invalid)
      else Ok(Written(id, BudgetRow(BudgetFrom(entry, createdBy, 1))))
    case UpdateBudget(id, entry, version) =>
      var row :- Guarded(db, BudgetEntity, id, version);
      if !fieldsValid || !OptionExists(db, entry.slotOptionId) then Err(Invalid)
      else Ok(Written(id, BudgetRow(BudgetFrom(entry, row.entry.createdBy, version + 1))))
    case SoftDelete(table, id, at, version) =>
      var row :- Guarded(db, table, id, version);
      Ok(Written(id, Tombstone(row, ToMicro(at))))
  }

  // ----- the reads that come before the first writing statement -----

  /** Where the logged payload is taken from: the row the statement returned, the tombstone worked out from the row
      read first, or a second read of the row. */
  datatype Source = Returned | Deleted(tombstone: Row) | Reread

  datatype Planned = Planned(stmt: Stmt, kind: OpKind, mask: FieldMask, source: Source)

  /** GetByID, which sees live rows only. */
  function Live(db: Db, e: Entity, id: ID): (r: Result<Row, DbError>)
    ensures r.Ok? ==> TableOf(r.value) == e && Lookup(db.rows, e, id) == Some(r.value) && DeletedAtOf(r.value).None?
  {
    match Lookup(db.rows, e, id)
    case Some(row) => if DeletedAtOf(row).None? then Ok(row) else Err(NotFound)
    case None => Err(NotFound)
  }

  function VersionOrCurrent(expected: Option<nat>, current: nat): nat {
    if expected.Some? then expected.value else current
  }

  /** NeighbourPositions and the key between them. */
  ghost function NewPosition(bounds: Option<Bounds>): Result<Str, DbError> {
    match bounds
    case None => Err(NotFound)
    case Some(b) =>
      match FracKeys.KeyBetween(b.prev, b.next)
      case Ok(key) => Ok(key)
      case Err(why) => Err(BadKey(why))
  }

  function MergeSlot(s: Slot, mask: FieldMask, given: SlotContent): SlotContent {
    SlotContent(if KindOf in mask then given.kind else s.kind,
                if Title in mask then given.title else s.title,
                if Notes in mask then given.notes else s.notes,
                if StartTime in mask then given.startTime else s.startTime,
                if EndTime in mask then given.endTime else s.endTime)
  }

  function MergeOption(o: SlotOption, mask: FieldMask, given: OptionContent): OptionContent {
    OptionContent(if Title in mask then given.title else o.title,
                  if Notes in mask then given.notes else o.notes,
                  if ExternalURL in mask then given.url else o.url,
                  if EstimatedCost in mask then given.cost else o.cost,
                  if PlaceName in mask then given.placeName else o.placeName,
                  if PlaceAddress in mask then given.placeAddress else o.placeAddress,
                  if PlaceLat in mask then given.lat else o.lat,
                  if PlaceLng in mask then given.lng else o.lng,
                  if PlaceProviderID in mask then given.providerId else o.providerId)
  }

  /** BudgetEntry.Validate and the membership check. */
  predicate LedgerAccepts(entry: BudgetContent, members: set<ID>) {
    && SplitsValid(entry.amount, entry.splits)
    && forall i :: 0 <= i < |entry.splits| ==> entry.splits[i].user in members
  }

  function PlanDelete(db: Db, e: Entity, kind: OpKind, id: ID, now: Time, expected: Option<nat>): Result<Planned, DbError> {
    var row :- Live(db, e, id);
    Ok(Planned(SoftDelete(e, id, now, VersionOrCurrent(expected, Version(row))), kind, {DeletedAt}, Deleted(Tombstone(row, now))))
  }

  /** Save: version zero means not yet persisted, so an edit that states it is an insert. */
  function SaveBudget(id: ID, entry: BudgetContent, createdBy: Option<ID>, version: nat): Stmt {
    if version == 0 then InsertBudget(id, entry, createdBy) else UpdateBudget(id, entry, version)
  }

  ghost function Plan(call: Call, db: Db): Result<Planned, DbError> {
    match call.intent
    case CreateDay(id, date, caption, after) =>
      var position :- NewPosition(DayNeighbours(db.rows.days, after));
      Ok(Planned(InsertDay(id, date, caption, position), DayCreate, AllowedFields(DayCreate), Returned))
    case EditDay(id, fields, date, caption, expected) =>
      var row :- Live(db, DayEntity, id);
      var d, mask := row.day, MaskFor(DayEdit, fields);
      Ok(Planned(UpdateDay(id, if Date in mask then date else d.date, if Label in mask then caption else d.caption,
                           d.position, VersionOrCurrent(expected, d.version)), DayEdit, mask, Returned))
    case MoveDay(id, after, expected) =>
      var row :- Live(db, DayEntity, id);
      var position :- NewPosition(DayNeighbours(db.rows.days, after));
      var d := row.day;
      Ok(Planned(UpdateDay(id, d.date, d.caption, position, VersionOrCurrent(expected, d.version)),
                 DayMove, {Position}, Returned))
    case DeleteDay(id, expected) => PlanDelete(db, DayEntity, DayDelete, id, call.now, expected)
    case CreateSlot(id, dayId, slot, after) =>
      var position :- NewPosition(SlotNeighbours(db.rows.slots, dayId, after));
      Ok(Planned(InsertSlot(id, dayId, slot, position, Some(call.actor)), SlotCreate, AllowedFields(SlotCreate), Returned))
    case EditSlot(id, fields, slot, expected) =>
      var row :- Live(db, SlotEntity, id);
      var mask := MaskFor(SlotEdit, fields);
      Ok(Planned(UpdateSlot(id, MergeSlot(row.slot, mask, slot), VersionOrCurrent(expected, row.slot.version)),
                 SlotEdit, mask, Returned))
    case MoveSlot(id, dayId, after, expected) =>
      var row :- Live(db, SlotEntity, id);
      var position :- NewPosition(SlotNeighbours(db.rows.slots, dayId, after));
      Ok(Planned(UpdatePlace(id, dayId, position, VersionOrCurrent(expected, row.slot.version)),
                 SlotMove, {DayID, Position}, Reread))
    case SelectOption(id, selected, expected) =>
      var row :- Live(db, SlotEntity, id);
      Ok(Planned(UpdateSelected(id, selected, VersionOrCurrent(expected, row.slot.version)),
                 SlotSelectOption, {SelectedOptionID}, Reread))
    case SetStatus(id, status, expected) =>
      var row :- Live(db, SlotEntity, id);
      Ok(Planned(UpdateStatus(id, status, call.now, call.actor, VersionOrCurrent(expected, row.slot.version)),
                 SlotSetStatus, {Status, StatusChangedAt, StatusChangedBy}, Reread))
    case DeleteSlot(id, expected) => PlanDelete(db, SlotEntity, SlotDelete, id, call.now, expected)
    case CreateOption(id, slotId, option) =>
      var _ :- Live(db, SlotEntity, slotId);
      Ok(Planned(InsertOption(id, slotId, option, call.actor), OptionCreate, AllowedFields(OptionCreate), Returned))
    case EditOption(id, fields, option, expected) =>
      var row :- Live(db, OptionEntity, id);
      var mask := MaskFor(OptionEdit, fields);
      Ok(Planned(UpdateOption(id, MergeOption(row.option, mask, option), VersionOrCurrent(expected, row.option.version)),
                 OptionEdit, mask, Returned))
    case DeleteOption(id, expected) => PlanDelete(db, OptionEntity, OptionDelete, id, call.now, expected)
    case CastVote(id, slotId, choice) =>
      var _ :- Live(db, SlotEntity, slotId);
      Ok(Planned(UpsertVote(id, slotId, call.actor, choice), VoteSet, AllowedFields(VoteSet), Returned))
    case CreateBudget(id, entry) =>
      if !LedgerAccepts(entry, call.members) then Err(Invalid)
      else Ok(Planned(InsertBudget(id, entry, Some(call.actor)), BudgetSet, AllowedFields(BudgetSet), Returned))
    case EditBudget(id, entry, expected) =>
      var row :- Live(db, BudgetEntity, id);
      if !LedgerAccepts(entry, call.members) || expected.None? then Err(Invalid)
      else Ok(Planned(SaveBudget(id, entry, row.entry.createdBy, expected.value), BudgetSet, AllowedFields(BudgetSet), Returned))
    case DeleteBudget(id, expected) =>
      if expected.None? then Err(Invalid) else PlanDelete(db, BudgetEntity, BudgetDelete, id, call.now, expected)
  }

  // ----- effects -----

  datatype Effect = PutRow(id: ID, row: Row) | TakeSeq | AddOp(op: Op)

  function Affect(db: Db, effect: Effect): Db {
    match effect
    case PutRow(id, row) =>
      var rows := Put(db.rows, id, row);
      if row.VoteRow? then Db(rows, db.log, db.ballots[(row.vote.slotId, row.vote.userId) := id])
      else db.(rows := rows)
    case TakeSeq => db.(rows := db.rows.(seqno := db.rows.seqno + 1))
    case AddOp(op) => db.(log := db.log + [op])
  }

  function AffectAll(db: Db, effects: seq<Effect>): Db {
    if effects == [] then db else Affect(AffectAll(db, effects[..|effects| - 1]), effects[|effects| - 1])
  }

  // ----- the statements of one write, in order -----

  /** An operation about to be recorded. cascade names the slot whose selection an option's deletion may clear; first
      says that the transaction has recorded none before it. */
  datatype Draft = Draft(kind: OpKind, entity: ID, mask: FieldMask, payload: Option<Payload>, version: nat,
                         first: bool, cascade: Option<ID>)

  datatype Pc =
    | Reading                                                         // everything read before the first write
    | Writing(plan: Planned)
    | Rereading(kind: OpKind, id: ID, mask: FieldMask, first: bool)   // recordSlotState
    | Allocating(draft: Draft)                                        // NextOpSeq
    | Appending(draft: Draft, seqno: nat)
    | Clearing(slotId: ID, option: ID)                                // option Delete reads its slot
    | Unselecting(slotId: ID, version: nat)
    | Finished
    | Failed(error: DbError)

  function DraftOf(kind: OpKind, id: ID, mask: FieldMask, row: Row, first: bool): Draft {
    Draft(kind, id, mask, PayloadOf(row, mask), Version(row), first,
          if kind.OptionDelete? && row.OptionRow? then Some(row.option.slotId) else None)
  }

  function OpOf(call: Call, draft: Draft, seqno: nat): Op
    requires draft.payload.Some?
  {
    Op(seqno, Some(call.actor), draft.kind, draft.entity, draft.mask, draft.payload.value, draft.version,
       if draft.first then call.clientOp else None, call.causeOp)
  }

  /** The unique indexes of the log: one operation per seq, one per client operation id. */
  predicate Appendable(log: seq<Op>, op: Op) {
    forall i :: 0 <= i < |log| ==> log[i].seqno != op.seqno && (op.clientOp.Some? ==> log[i].clientOp != op.clientOp)
  }

  datatype Step = Step(pc: Pc, effects: seq<Effect>)

  /** One statement: what it does to the transaction's view, and where the write stands after it. */
  ghost function Next(call: Call, pc: Pc, db: Db): Step
    requires !pc.Finished? && !pc.Failed?
  {
    match pc
    case Reading =>
      (match Plan(call, db)
       case Err(e) => Step(Failed(e), [])
       case Ok(plan) => Step(Writing(plan), []))
    case Writing(plan) =>
      (match Execute(plan.stmt, call.fieldsValid, db)
       case Err(e) => Step(Failed(e), [])
       case Ok(w) =>
         var after := match plan.source
           case Returned => Allocating(DraftOf(plan.kind, w.id, plan.mask, w.row, true))
           case Deleted(tombstone) => Allocating(DraftOf(plan.kind, w.id, plan.mask, tombstone, true))
           case Reread => Rereading(plan.kind, w.id, plan.mask, true);
         Step(after, [PutRow(w.id, w.row)]))
    case Rereading(kind, id, mask, first) =>
      (match Live(db, SlotEntity, id)
       case Err(e) => Step(Failed(e), [])
       case Ok(row) => Step(Allocating(DraftOf(kind, id, mask, row, first)), []))
    case Allocating(draft) =>
      if draft.payload.None? then Step(Failed(NoEncoder), [])
      else if !MaskValid(draft.mask, draft.kind) then Step(Failed(Invalid), [])
      else Step(Appending(draft, db.rows.seqno + 1), [TakeSeq])
    case Appending(draft, seqno) =>
      if draft.payload.None? then Step(Failed(NoEncoder), [])
      else
        var op := OpOf(call, draft, seqno);
        if !Appendable(db.log, op) then Step(Failed(AlreadyExists), [])
        else Step(if draft.cascade.Some? then Clearing(draft.cascade.value, draft.entity) else Finished, [AddOp(op)])
    case Clearing(slotId, option) =>
      (match Live(db, SlotEntity, slotId)
       case Err(e) => Step(Failed(e), [])
       case Ok(row) =>
         if row.slot.selected == Some(option) then Step(Unselecting(slotId, row.slot.version), [])
         else Step(Finished, []))
    case Unselecting(slotId, version) =>
      (match Execute(UpdateSelected(slotId, None, version), true, db)
       case Err(e) => Step(Failed(e), [])
       case Ok(w) => Step(Rereading(SlotSelectOption, w.id, {SelectedOptionID}, false), [PutRow(w.id, w.row)]))
  }

  /** How many statements are left at most. */
  function Left(pc: Pc): nat {
    match pc
    case Reading => 12
    case Writing(_) => 11
    case Rereading(_, _, _, _) => 4
    case Allocating(draft) => if draft.cascade.Some? then 10 else 3
    case Appending(draft, _) => if draft.cascade.Some? then 9 else 2
    case Clearing(_, _) => 8
    case Unselecting(_, _) => 7
    case Finished => 0
    case Failed(_) => 0
  }

  lemma LeftDecreases(call: Call, pc: Pc, db: Db)
    requires !pc.Finished? && !pc.Failed?
    ensures Left(Next(call, pc, db).pc) < Left(pc)
    ensures |Next(call, pc, db).effects| <= 1
  {
  }
}
