/** The planning services as the methods they are, over tables that the repository changes in place: each call reads,
    writes, records and on any error puts everything back (internal/service/oplog.go write and record, day.go, slot.go,
    option.go, vote.go, budget.go; internal/repository/slot.go, oplog.go). */
module TripStores {
  import opened Outcomes
  import opened ByteOrder
  import FracKeys
  import opened Domain
  import opened Folding
  import opened Tables
  import opened Placement
  import opened Ledger
  import opened Writes
  import opened Convergence
  import opened Transactions
  import opened Merging

  class TripStore {
    var opSeq: nat
    var log: seq<Op>
    var days: map<ID, Day>
    var slots: map<ID, Slot>
    var options: map<ID, SlotOption>
    var votes: map<ID, Vote>
    var budgets: map<ID, Budget>
    var ballots: map<(ID, ID), ID>

    function AsDb(): Db
      reads this
    {
      Db(Replica(opSeq, days, slots, options, votes, budgets), log, ballots)
    }

    ghost predicate Valid()
      reads this
    {
      Consistent(AsDb())
    }

    constructor ()
      ensures AsDb() == EMPTY_DB && Valid()
    {
      opSeq, log, ballots := 0, [], map[];
      days, slots, options, votes, budgets := map[], map[], map[], map[], map[];
      new;
      EmptyIsConsistent();
    }

    // ----- reads -----

    /** ORDER BY position, id LIMIT 1. */
    method FirstOf(places: set<Place>) returns (position: Str)
      ensures position == FirstPosition(places)
    {
      if places == {} {
        return [];
      }
      var first: Place :| first in places;
      var rest := places - {first};
      while rest != {}
        invariant rest <= places && first in places && first !in rest
        invariant forall q :: q in places && q !in rest ==> q == first || Earlier(first, q)
        decreases |rest|
      {
        var q: Place :| q in rest;
        EarlierTotal(first, q);
        rest := rest - {q};
        if Earlier(q, first) {
          forall x | x in places && x !in rest && x != q ensures Earlier(q, x) {
            if x != first {
              EarlierTransitive(q, first, x);
            }
          }
          first := q;
        }
      }
      FirstIs(places, first);
      return first.position;
    }

    /** NeighbourPositions of the slot repository. */
    method SlotBounds(dayId: Option<ID>, after: Option<ID>) returns (bounds: Option<Bounds>)
      ensures bounds == SlotNeighbours(slots, dayId, after)
    {
      var bucket := set id | id in slots && slots[id].deletedAt.None? && slots[id].dayId == dayId :: SlotPlace(slots, id);
      assert bucket == Bucket(slots, dayId);
      if after.None? {
        var next := FirstOf(bucket);
        return Some(Bounds([], next));
      }
      var a := after.value;
      if a !in slots || slots[a].deletedAt.Some? {
        return None;
      }
      var anchor := SlotPlace(slots, a);
      var following := set q | q in bucket && Earlier(anchor, q);
      assert following == Following(bucket, anchor);
      var next := FirstOf(following);
      return Some(Bounds(slots[a].position, next));
    }

    method DayBounds(after: Option<ID>) returns (bounds: Option<Bounds>)
      ensures bounds == DayNeighbours(days, after)
    {
      var live := set id | id in days && days[id].deletedAt.None? :: Place(days[id].position, id);
      assert live == LiveDays(days);
      if after.None? {
        var next := FirstOf(live);
        return Some(Bounds([], next));
      }
      var a := after.value;
      if a !in days || days[a].deletedAt.Some? {
        return None;
      }
      var anchor := Place(days[a].position, a);
      var following := set q | q in live && Earlier(anchor, q);
      assert following == Following(live, anchor);
      var next := FirstOf(following);
      return Some(Bounds(days[a].position, next));
    }

    method PositionBetween(bounds: Option<Bounds>) returns (r: Result<Str, DbError>)
      ensures r == NewPosition(bounds)
    {
      if bounds.None? {
        return Err(NotFound);
      }
      var key := FracKeys.KeyBetween(bounds.value.prev, bounds.value.next);
      return if key.Ok? then Ok(key.value) else Err(BadKey(key.error));
    }

    // ----- guarded statements -----

    /** INSERT and UPDATE on days. */
    method WriteDay(stmt: Stmt, fieldsValid: bool) returns (r: Result<Written, DbError>)
      requires stmt.InsertDay? || stmt.UpdateDay?
      modifies this`days
      ensures r == Execute(stmt, fieldsValid, old(AsDb()))
      ensures AsDb() == if r.Ok? then Affect(old(AsDb()), PutRow(r.value.id, r.value.row)) else old(AsDb())
    {
      var id := stmt.id;
      var version := 1;
      if stmt.InsertDay? {
        if id in days {
          return Err(AlreadyExists);
        }
      } else {
        var found := Guarded(AsDb(), DayEntity, id, stmt.version);
        if found.Err? {
          return Err(found.error);
        }
        version := stmt.version + 1;
      }
      if !fieldsValid || !PositionFits(stmt.position) || !DateFree(AsDb(), id, stmt.date) {
        return Err(Invalid);
      }
      days := days[id := Day(stmt.date, stmt.caption, stmt.position, version, None)];
      return Ok(Written(id, DayRow(days[id])));
    }

    method InsertSlotRow(stmt: Stmt, fieldsValid: bool) returns (r: Result<Written, DbError>)
      requires stmt.InsertSlot?
      modifies this`slots
      ensures r == Execute(stmt, fieldsValid, old(AsDb()))
      ensures AsDb() == if r.Ok? then Affect(old(AsDb()), PutRow(r.value.id, r.value.row)) else old(AsDb())
    {
      if stmt.id in slots {
        return Err(AlreadyExists);
      }
      if !fieldsValid || !PositionFits(stmt.position) || !DayExists(AsDb(), stmt.dayId) {
        return Err(Invalid);
      }
      var c := stmt.slot;
      slots := slots[stmt.id := Slot(stmt.dayId, c.kind, c.title, c.notes, c.startTime, c.endTime, stmt.position,
                                     None, PLANNED, None, None, stmt.createdBy, 1, None)];
      return Ok(Written(stmt.id, SlotRow(slots[stmt.id])));
    }

    /** UpdateSlot, MoveSlot, SetSlotSelectedOption and SetSlotStatus: one guard, one version, and the columns each names. */
    method UpdateSlotRow(stmt: Stmt, fieldsValid: bool) returns (r: Result<Written, DbError>)
      requires stmt.UpdateSlot? || stmt.UpdatePlace? || stmt.UpdateSelected? || stmt.UpdateStatus?
      modifies this`slots
      ensures r == Execute(stmt, fieldsValid, old(AsDb()))
      ensures AsDb() == if r.Ok? then Affect(old(AsDb()), PutRow(r.value.id, r.value.row)) else old(AsDb())
    {
      var id := stmt.id;
      var found := Guarded(AsDb(), SlotEntity, id, stmt.version);
      if found.Err? {
        return Err(found.error);
      }
      var s := slots[id];
      match stmt {
        case UpdateSlot(_, c, _) =>
          if !fieldsValid {
            return Err(Invalid);
          }
          s := s.(kind := c.kind, title := c.title, notes := c.notes, startTime := c.startTime, endTime := c.endTime);
        case UpdatePlace(_, dayId, position, _) =>
          if !PositionFits(position) || !DayExists(AsDb(), dayId) {
            return Err(Invalid);
          }
          s := s.(dayId := dayId, position := position);
        case UpdateSelected(_, selected, _) =>
          if !OptionOfSlot(AsDb(), selected, id) {
            return Err(Invalid);
          }
          s := s.(selected := selected);
        case UpdateStatus(_, status, at, who, _) =>
          if !fieldsValid {
            return Err(Invalid);
          }
          s := s.(status := status, changedAt := Some(ToMicro(at)), changedBy := Some(who));
      }
      slots := slots[id := s.(version := stmt.version + 1)];
      return Ok(Written(id, SlotRow(slots[id])));
    }

    method WriteOption(stmt: Stmt, fieldsValid: bool) returns (r: Result<Written, DbError>)
      requires stmt.InsertOption? || stmt.UpdateOption?
      modifies this`options
      ensures r == Execute(stmt, fieldsValid, old(AsDb()))
      ensures AsDb() == if r.Ok? then Affect(old(AsDb()), PutRow(r.value.id, r.value.row)) else old(AsDb())
    {
      var id, c := stmt.id, stmt.option;
      var o: SlotOption;
      if stmt.InsertOption? {
        if id in options {
          return Err(AlreadyExists);
        }
        if !fieldsValid || stmt.slotId !in slots {
          return Err(Invalid);
        }
        o := SlotOption(stmt.slotId, [], [], [], None, [], [], None, None, [], Some(stmt.proposedBy), 1, None);
      } else {
        var found := Guarded(AsDb(), OptionEntity, id, stmt.version);
        if found.Err? {
          return Err(found.error);
        }
        if !fieldsValid {
          return Err(Invalid);
        }
        o := options[id].(version := stmt.version + 1);
      }
      options := options[id := WithContent(o, c)];
      return Ok(Written(id, OptionRow(options[id])));
    }

    /** INSERT .. ON CONFLICT (slot_id, user_id) DO UPDATE: a member's vote on a slot keeps its row, and takes the choice. */
    method CastRow(stmt: Stmt, fieldsValid: bool) returns (r: Result<Written, DbError>)
      requires stmt.UpsertVote?
      modifies this`votes, this`ballots
      ensures r == Execute(stmt, fieldsValid, old(AsDb()))
      ensures r.Ok? ==> var id, key := r.value.id, (stmt.slotId, stmt.userId);
        && id in votes && votes[id].optionId == stmt.choice && votes == old(votes)[id := votes[id]]
        && (if key in old(ballots) && old(ballots)[key] in old(votes) then
              id == old(ballots)[key] && votes[id] == old(votes)[id].(optionId := stmt.choice, version := old(votes)[id].version + 1)
            else id == stmt.id && votes[id] == Vote(stmt.slotId, stmt.userId, stmt.choice, 1))
      ensures AsDb() == if r.Ok? then Affect(old(AsDb()), PutRow(r.value.id, r.value.row)) else old(AsDb())
    {
      var key := (stmt.slotId, stmt.userId);
      if !fieldsValid || !OptionOfSlot(AsDb(), stmt.choice, stmt.slotId) {
        return Err(Invalid);
      }
      var id := stmt.id;
      if key in ballots && ballots[key] in votes {
        id := ballots[key];
        var vote := votes[id];
        votes := votes[id := vote.(optionId := stmt.choice, version := vote.version + 1)];
      } else {
        if id in votes {
          return Err(AlreadyExists);
        }
        votes := votes[id := Vote(stmt.slotId, stmt.userId, stmt.choice, 1)];
      }
      ballots := ballots[(votes[id].slotId, votes[id].userId) := id];
      return Ok(Written(id, VoteRow(votes[id])));
    }

    /** Save: insert or guarded update, every field as given, and the split set replaced whole. */
    method SaveEntry(stmt: Stmt, fieldsValid: bool) returns (r: Result<Written, DbError>)
      requires stmt.InsertBudget? || stmt.UpdateBudget?
      modifies this`budgets
      ensures r == Execute(stmt, fieldsValid, old(AsDb()))
      ensures r.Ok? ==> var id, given := stmt.id, stmt.entry;
        && id in budgets && budgets == old(budgets)[id := budgets[id]]
        && var e := budgets[id];
           && e.caption == given.caption && e.category == given.category && e.amount == given.amount
           && e.slotOptionId == given.slotOptionId && e.paidBy == given.paidBy && e.incurredOn == given.incurredOn
           && multiset(e.splits) == multiset(given.splits) && InUserOrder(e.splits)
      ensures AsDb() == if r.Ok? then Affect(old(AsDb()), PutRow(r.value.id, r.value.row)) else old(AsDb())
    {
      var id := stmt.id;
      var createdBy, version := None, 1;
      if stmt.InsertBudget? {
        if id in budgets {
          return Err(AlreadyExists);
        }
        createdBy := stmt.createdBy;
      } else {
        var found := Guarded(AsDb(), BudgetEntity, id, stmt.version);
        if found.Err? {
          return Err(found.error);
        }
        createdBy, version := budgets[id].createdBy, stmt.version + 1;
      }
      if !fieldsValid || !OptionExists(AsDb(), stmt.entry.slotOptionId) {
        return Err(Invalid);
      }
      budgets := budgets[id := BudgetFrom(stmt.entry, createdBy, version)];
      SortedIsPermutation(stmt.entry.splits);
      return Ok(Written(id, BudgetRow(budgets[id])));
    }

    /** The four soft deletes. */
    method BuryRow(stmt: Stmt) returns (r: Result<Written, DbError>)
      requires stmt.SoftDelete? && !stmt.table.VoteEntity?
      modifies this`days, this`slots, this`options, this`budgets
      ensures r == Execute(stmt, true, old(AsDb()))
      ensures AsDb() == if r.Ok? then Affect(old(AsDb()), PutRow(r.value.id, r.value.row)) else old(AsDb())
    {
      var id := stmt.id;
      var found := Guarded(AsDb(), stmt.table, id, stmt.version);
      if found.Err? {
        return Err(found.error);
      }
      var row := Tombstone(found.value, ToMicro(stmt.at));
      match row {
        case DayRow(d) => days := days[id := d];
        case SlotRow(s) => slots := slots[id := s];
        case OptionRow(o) => options := options[id := o];
        case BudgetRow(e) => budgets := budgets[id := e];
      }
      return Ok(Written(id, row));
    }

    method Perform(stmt: Stmt, fieldsValid: bool) returns (r: Result<Written, DbError>)
      requires stmt.SoftDelete? ==> !stmt.table.VoteEntity?
      modifies this`days, this`slots, this`options, this`votes, this`budgets, this`ballots
      ensures r == Execute(stmt, fieldsValid, old(AsDb()))
      ensures AsDb() == if r.Ok? then Affect(old(AsDb()), PutRow(r.value.id, r.value.row)) else old(AsDb())
    {
      if stmt.InsertDay? || stmt.UpdateDay? {
        r := WriteDay(stmt, fieldsValid);
      } else if stmt.InsertSlot? {
        r := InsertSlotRow(stmt, fieldsValid);
      } else if stmt.InsertOption? || stmt.UpdateOption? {
        r := WriteOption(stmt, fieldsValid);
      } else if stmt.UpsertVote? {
        r := CastRow(stmt, fieldsValid);
      } else if stmt.InsertBudget? || stmt.UpdateBudget? {
        r := SaveEntry(stmt, fieldsValid);
      } else if stmt.SoftDelete? {
        r := BuryRow(stmt);
      } else {
        r := UpdateSlotRow(stmt, fieldsValid);
      }
    }

    // ----- oplog -----

    /** record: the mask is checked, a number taken, the operation appended under the log's unique indexes. */
    method Record(call: Call, draft: Draft) returns (error: Option<DbError>)
      modifies this`opSeq, this`log
      ensures Goes(call, Allocating(draft), old(AsDb()), AfterAppend(draft), AsDb(), error)
    {
      if draft.payload.None? || !MaskValid(draft.mask, draft.kind) {
        RecordRefused(call, draft, AsDb());
        return if draft.payload.None? then Some(NoEncoder) else Some(Invalid);
      }
      RecordsOnce(call, draft, AsDb());
      opSeq := opSeq + 1;
      var op := OpOf(call, draft, opSeq);
      if !Appendable(log, op) {
        return Some(AlreadyExists);
      }
      log := log + [op];
      return None;
    }

    /** recordSlotState: the named fields of the slot as a second read finds it. */
    method RecordSlotState(call: Call, kind: OpKind, id: ID, mask: FieldMask, first: bool) returns (error: Option<DbError>)
      requires !kind.OptionDelete?
      modifies this`opSeq, this`log
      ensures Goes(call, Rereading(kind, id, mask, first), old(AsDb()), Finished, AsDb(), error)
    {
      ghost var before := AsDb();
      CompletionStep(call, Rereading(kind, id, mask, first), before);
      assert AffectAll(before, []) == before;
      var found := Live(AsDb(), SlotEntity, id);
      if found.Err? {
        return Some(found.error);
      }
      error := Record(call, DraftOf(kind, id, mask, found.value, first));
    }

    /** A planned statement, and the record of what it wrote. */
    method WriteAndRecord(call: Call, plan: Planned) returns (error: Option<DbError>, ghost next: Pc)
      requires plan.stmt.SoftDelete? ==> !plan.stmt.table.VoteEntity?
      requires plan.source.Reread? ==> !plan.kind.OptionDelete?
      modifies this
      ensures Goes(call, Writing(plan), old(AsDb()), next, AsDb(), error)
      ensures error.None? && !plan.kind.OptionDelete? ==> next == Finished
      ensures error.None? && plan.kind.OptionDelete? && plan.stmt.SoftDelete? ==>
        plan.source.Deleted? && plan.source.tombstone.OptionRow? ==>
        next == Clearing(plan.source.tombstone.option.slotId, plan.stmt.id)
    {
      ghost var before := AsDb();
      next := Finished;
      CompletionStep(call, Writing(plan), before);
      assert AffectAll(before, []) == before;
      var r := Perform(plan.stmt, call.fieldsValid);
      if r.Err? {
        return Some(r.error), Finished;
      }
      OneEffect(before, PutRow(r.value.id, r.value.row));
      match plan.source {
        case Reread => error := RecordSlotState(call, plan.kind, r.value.id, plan.mask, true);
        case Returned =>
          var draft := DraftOf(plan.kind, r.value.id, plan.mask, r.value.row, true);
          error := Record(call, draft);
          next := AfterAppend(draft);
        case Deleted(tombstone) =>
          var draft := DraftOf(plan.kind, r.value.id, plan.mask, tombstone, true);
          error := Record(call, draft);
          next := AfterAppend(draft);
      }
    }

    // ----- services: what each call reads before it writes -----

    method ReadDayCall(call: Call) returns (r: Result<Planned, DbError>)
      requires TargetTable(call.intent) == DayEntity
      ensures r == Plan(call, AsDb())
    {
      match call.intent {
        case CreateDay(id, date, caption, after) =>
          var bounds := DayBounds(after);
          var position := PositionBetween(bounds);
          if position.Err? {
            return Err(position.error);
          }
          return Ok(Planned(InsertDay(id, date, caption, position.value), DayCreate, AllowedFields(DayCreate), Returned));
        case EditDay(id, fields, date, caption, expected) =>
          var found := Live(AsDb(), DayEntity, id);
          if found.Err? {
            return Err(found.error);
          }
          var d, mask := days[id], MaskFor(DayEdit, fields);
          return Ok(Planned(UpdateDay(id, if Date in mask then date else d.date, if Label in mask then caption else d.caption,
                                      d.position, VersionOrCurrent(expected, d.version)), DayEdit, mask, Returned));
        case MoveDay(id, after, expected) =>
          var found := Live(AsDb(), DayEntity, id);
          if found.Err? {
            return Err(found.error);
          }
          var bounds := DayBounds(after);
          var position := PositionBetween(bounds);
          if position.Err? {
            return Err(position.error);
          }
          var d := days[id];
          return Ok(Planned(UpdateDay(id, d.date, d.caption, position.value, VersionOrCurrent(expected, d.version)),
                            DayMove, {Position}, Returned));
        case DeleteDay(id, expected) => return PlanDelete(AsDb(), DayEntity, DayDelete, id, call.now, expected);
      }
    }

    method ReadSlotCall(call: Call) returns (r: Result<Planned, DbError>)
      requires TargetTable(call.intent) == SlotEntity
      ensures r == Plan(call, AsDb())
    {
      if call.intent.CreateSlot? {
        var bounds := SlotBounds(call.intent.dayId, call.intent.after);
        var position := PositionBetween(bounds);
        if position.Err? {
          return Err(position.error);
        }
        return Ok(Planned(InsertSlot(call.intent.id, call.intent.dayId, call.intent.slot, position.value, Some(call.actor)),
                          SlotCreate, AllowedFields(SlotCreate), Returned));
      }
      var found := Live(AsDb(), SlotEntity, call.intent.id);
      if found.Err? {
        return Err(found.error);
      }
      var existing := slots[call.intent.id];
      match call.intent {
        case EditSlot(id, fields, given, expected) =>
          var mask := MaskFor(SlotEdit, fields);
          return Ok(Planned(UpdateSlot(id, MergeSlot(existing, mask, given), VersionOrCurrent(expected, existing.version)),
                            SlotEdit, mask, Returned));
        case MoveSlot(id, dayId, after, expected) =>
          var bounds := SlotBounds(dayId, after);
          var position := PositionBetween(bounds);
          if position.Err? {
            return Err(position.error);
          }
          return Ok(Planned(UpdatePlace(id, dayId, position.value, VersionOrCurrent(expected, existing.version)),
                            SlotMove, {DayID, Position}, Reread));
        case SelectOption(id, selected, expected) =>
          return Ok(Planned(UpdateSelected(id, selected, VersionOrCurrent(expected, existing.version)),
                            SlotSelectOption, {SelectedOptionID}, Reread));
        case SetStatus(id, status, expected) =>
          return Ok(Planned(UpdateStatus(id, status, call.now, call.actor, VersionOrCurrent(expected, existing.version)),
                            SlotSetStatus, {Status, StatusChangedAt, StatusChangedBy}, Reread));
        case DeleteSlot(id, expected) => return PlanDelete(AsDb(), SlotEntity, SlotDelete, id, call.now, expected);
      }
    }

    method ReadOptionCall(call: Call) returns (r: Result<Planned, DbError>)
      requires TargetTable(call.intent) == OptionEntity
      ensures r == Plan(call, AsDb())
    {
      match call.intent {
        case CreateOption(id, slotId, option) =>
          var slot := Live(AsDb(), SlotEntity, slotId);
          if slot.Err? {
            return Err(slot.error);
          }
          return Ok(Planned(InsertOption(id, slotId, option, call.actor), OptionCreate, AllowedFields(OptionCreate), Returned));
        case EditOption(id, fields, given, expected) =>
          var found := Live(AsDb(), OptionEntity, id);
          if found.Err? {
            return Err(found.error);
          }
          var existing, mask := options[id], MaskFor(OptionEdit, fields);
          return Ok(Planned(UpdateOption(id, MergeOption(existing, mask, given), VersionOrCurrent(expected, existing.version)),
                            OptionEdit, mask, Returned));
        case DeleteOption(id, expected) => return PlanDelete(AsDb(), OptionEntity, OptionDelete, id, call.now, expected);
      }
    }

    method ReadVoteCall(call: Call) returns (r: Result<Planned, DbError>)
      requires call.intent.CastVote?
      ensures r == Plan(call, AsDb())
    {
      var slot := Live(AsDb(), SlotEntity, call.intent.slotId);
      if slot.Err? {
        return Err(slot.error);
      }
      return Ok(Planned(UpsertVote(call.intent.id, call.intent.slotId, call.actor, call.intent.choice), VoteSet,
                        AllowedFields(VoteSet), Returned));
    }

    /** The service's validate: the entry's own demands, then one pass over the splits against the member list. */
    method ValidateEntry(entry: BudgetContent, members: set<ID>) returns (ok: bool)
      ensures ok <==> LedgerAccepts(entry, members)
    {
      var issues := Validate(entry.amount, entry.splits);
      if issues != {} {
        return false;
      }
      for i := 0 to |entry.splits|
        invariant forall j :: 0 <= j < i ==> entry.splits[j].user in members
      {
        if entry.splits[i].user !in members {
          return false;
        }
      }
      return true;
    }

    method ReadLedgerCall(call: Call) returns (r: Result<Planned, DbError>)
      requires TargetTable(call.intent) == BudgetEntity
      ensures r == Plan(call, AsDb())
    {
      match call.intent {
        case CreateBudget(id, entry) =>
          var ok := ValidateEntry(entry, call.members);
          if !ok {
            return Err(Invalid);
          }
          return Ok(Planned(InsertBudget(id, entry, Some(call.actor)), BudgetSet, AllowedFields(BudgetSet), Returned));
        case EditBudget(id, entry, expected) =>
          var found := Live(AsDb(), BudgetEntity, id);
          if found.Err? {
            return Err(found.error);
          }
          var ok := ValidateEntry(entry, call.members);
          if !ok || expected.None? {
            return Err(Invalid);
          }
          return Ok(Planned(SaveBudget(id, entry, budgets[id].createdBy, expected.value), BudgetSet,
                            AllowedFields(BudgetSet), Returned));
        case DeleteBudget(id, expected) =>
          if expected.None? {
            return Err(Invalid);
          }
          return PlanDelete(AsDb(), BudgetEntity, BudgetDelete, id, call.now, expected);
      }
    }

    method ReadCall(call: Call) returns (r: Result<Planned, DbError>)
      ensures r == Plan(call, AsDb())
    {
      match TargetTable(call.intent) {
        case DayEntity => r := ReadDayCall(call);
        case SlotEntity => r := ReadSlotCall(call);
        case OptionEntity => r := ReadOptionCall(call);
        case VoteEntity => r := ReadVoteCall(call);
        case BudgetEntity => r := ReadLedgerCall(call);
      }
    }

    /** The second half of an option's deletion: its slot, if it selects the option, is cleared and recorded in turn. */
    method ClearSelection(call: Call, slotId: ID, option: ID) returns (error: Option<DbError>)
      modifies this
      ensures Goes(call, Clearing(slotId, option), old(AsDb()), Finished, AsDb(), error)
    {
      ghost var before := AsDb();
      CompletionStep(call, Clearing(slotId, option), before);
      assert AffectAll(before, []) == before;
      var found := Live(AsDb(), SlotEntity, slotId);
      if found.Err? {
        return Some(found.error);
      }
      if slots[slotId].selected != Some(option) {
        return None;
      }
      error := Unselect(call, slotId, slots[slotId].version);
    }

    method Unselect(call: Call, slotId: ID, version: nat) returns (error: Option<DbError>)
      modifies this
      ensures Goes(call, Unselecting(slotId, version), old(AsDb()), Finished, AsDb(), error)
    {
      ghost var before := AsDb();
      CompletionStep(call, Unselecting(slotId, version), before);
      assert AffectAll(before, []) == before;
      var r := Perform(UpdateSelected(slotId, None, version), true);
      if r.Err? {
        return Some(r.error);
      }
      OneEffect(before, PutRow(r.value.id, r.value.row));
      error := RecordSlotState(call, SlotSelectOption, r.value.id, {SelectedOptionID}, false);
    }

    /** One service call inside its transaction. */
    method Serve(call: Call) returns (error: Option<DbError>)
      modifies this
      ensures Goes(call, Reading, old(AsDb()), Finished, AsDb(), error)
    {
      ghost var before := AsDb();
      CompletionStep(call, Reading, before);
      assert AffectAll(before, []) == before;
      var plan := ReadCall(call);
      if plan.Err? {
        return Some(plan.error);
      }
      PlanShape(call, before, plan.value);
      ghost var next;
      error, next := WriteAndRecord(call, plan.value);
      if error.None? && call.intent.DeleteOption? {
        error := ClearSelection(call, plan.value.source.tombstone.option.slotId, call.intent.id);
      }
    }

    /** oplog.write: the call runs under the trip's lock; on an error everything it did is undone; otherwise the trip is
        what running the call alone makes of it, and the operations to publish are those the log has gained. */
    method Write(call: Call) returns (r: Result<seq<Op>, DbError>)
      requires Valid()
      modifies this
      ensures Valid()
      ensures Answers(call, old(AsDb()), AsDb(), r)
    {
      if Refusal(call.intent).Some? {
        return Err(Refusal(call.intent).value);
      }
      ghost var before := AsDb();
      var (opSeq0, log0, ballots0) := (opSeq, log, ballots);
      var (days0, slots0, options0, votes0, budgets0) := (days, slots, options, votes, budgets);
      var error := Serve(call);
      if error.Some? {
        opSeq, log, ballots := opSeq0, log0, ballots0;
        days, slots, options, votes, budgets := days0, slots0, options0, votes0, budgets0;
        assert AsDb() == before;
        return Err(error.value);
      }
      Answered(call, before, AsDb());
      return Ok(log[|log0|..]);
    }
  }

  lemma RecordRefused(call: Call, draft: Draft, db: Db)
    requires draft.payload.None? || !MaskValid(draft.mask, draft.kind)
    ensures Completion(call, Allocating(draft), db) == RolledBack(if draft.payload.None? then NoEncoder else Invalid)
  {
  }

  /** How a call ends for its caller: the trip after it, and what it answers. */
  ghost predicate Answers(call: Call, before: Db, after: Db, r: Result<seq<Op>, DbError>) {
    match Atomic(call, before)
    case Committed(db) => after == db && r.Ok? && after.log == before.log + r.value && CallAdds(call, r.value)
    case RolledBack(error) => after == before && r == Err(error)
  }

  lemma Answered(call: Call, before: Db, after: Db)
    requires Consistent(before) && Refusal(call.intent).None? && Goes(call, Reading, before, Finished, after, None)
    ensures Consistent(after) && before.log <= after.log && Answers(call, before, after, Ok(after.log[|before.log|..]))
  {
    ServedIsAtomic(call, before, after);
    CommittedKeepsConsistent(call, before);
    CommittedAnswer(call, before, after);
  }

  lemma ServedIsAtomic(call: Call, before: Db, after: Db)
    requires Refusal(call.intent).None? && Goes(call, Reading, before, Finished, after, None)
    ensures Atomic(call, before) == Committed(after)
  {
  }

  lemma CommittedAnswer(call: Call, before: Db, after: Db)
    requires Atomic(call, before) == Committed(after)
    requires before.log <= after.log && CallAdds(call, after.log[|before.log|..])
    ensures Answers(call, before, after, Ok(after.log[|before.log|..]))
  {
    assert after.log == before.log + after.log[|before.log|..];
  }

  lemma PlanShape(call: Call, db: Db, plan: Planned)
    requires Plan(call, db) == Ok(plan)
    ensures plan.stmt.SoftDelete? ==> !plan.stmt.table.VoteEntity?
    ensures plan.source.Reread? ==> !plan.kind.OptionDelete?
    ensures plan.kind.OptionDelete? <==> call.intent.DeleteOption?
    ensures call.intent.DeleteOption? ==>
      plan.stmt.SoftDelete? && plan.stmt.id == call.intent.id && plan.source.Deleted? && plan.source.tombstone.OptionRow?
  {
  }

  /** A stretch of a write: from one point on the state before, it goes to another on the state after, or ends there. */
  ghost predicate Goes(call: Call, pc: Pc, before: Db, next: Pc, after: Db, error: Option<DbError>) {
    Completion(call, pc, before) == if error.Some? then RolledBack(error.value) else Completion(call, next, after)
  }
}
