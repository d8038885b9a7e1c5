/** How near the fold of a log comes to the database, and exactly when it is the database. Two things stand between them:
    an option's two coordinates are decoded through one variable (internal/domain/op.go applyOption), and a deletion is
    logged with the clock's nanoseconds but stored with microseconds. */
module Exactness {
  import opened Outcomes
  import opened Domain
  import opened Folding
  import opened Lenses
  import opened Tables
  import opened Writes
  import opened Convergence
  import opened Transactions
  import opened Merging

  // ----- up to latitudes and nanoseconds -----

  /** A row with an option's latitude set aside and a deletion time cut to the microsecond. */
  function Settled(row: Row): Row {
    match KeptRow(row)
    case OptionRow(o) => OptionRow(o.(lat := None))
    case other => other
  }

  function SettledAt(r: Replica, e: Entity, id: ID): Option<Row> {
    match Lookup(r, e, id)
    case Some(row) => Some(Settled(row))
    case None => None
  }

  /** The same entities, and the same in every column, version and author, latitudes and nanoseconds set aside. */
  ghost predicate Agree(r: Replica, rows: Replica) {
    r.seqno == rows.seqno && forall e, id :: SettledAt(r, e, id) == SettledAt(rows, e, id)
  }

  lemma SettledColumns(row: Row, f: Field)
    requires f in Columns(TableOf(row))
    ensures TableOf(Settled(row)) == TableOf(row) && Author(Settled(row)) == Author(row) && Version(Settled(row)) == Version(row)
    ensures Column(row, f).Some?
    ensures Column(Settled(row), f) == Some(if f == PlaceLat then Coordinate(None) else Kept(f, Column(row, f).value))
  {
    KeptColumns(row, f);
    OnlyOptionsHavePlaces(TableOf(row), f);
    if row.OptionRow? {
      SettingLatitude(KeptRow(row), f);
    }
  }

  lemma SettingLatitude(row: Row, f: Field)
    requires f in Columns(TableOf(row)) && row.OptionRow?
    ensures Column(OptionRow(row.option.(lat := None)), f) == if f == PlaceLat then Some(Coordinate(None)) else Column(row, f)
  {
  }

  lemma LoggedIsWellFormed(log: seq<Op>, e: Entity, id: ID, f: Field)
    requires OpsWellFormed(log) && LastNaming(log, e, id, f).Some?
    ensures var op := LastNaming(log, e, id, f).value; OpWellFormed(op) && op.payload.Keys <= AllowedFields(op.kind)
  {
  }

  /** Register by register, the fold and the tables differ only in latitudes and nanoseconds. */
  lemma RegistersAgree(log: seq<Op>, e: Entity, id: ID, f: Field)
    requires OpsWellFormed(log) && f in Columns(e)
    ensures var x, y := FoldedRegister(log, e, id, f), StoredRegister(log, e, id, f);
      && x.Some? && y.Some?
      && (f != PlaceLat ==> Kept(f, x.value) == y.value)
      && (x == y <==>
            var last := LastNaming(log, e, id, f);
            last.Some? ==> !(f == PlaceLat && Skewed(last.value)) && (f == DeletedAt ==> OnMicrosecond(last.value)))
  {
    RegisterIsKept(log, e, id, f);
    var last := LastNaming(log, e, id, f);
    if last.Some? {
      LoggedIsWellFormed(log, e, id, f);
      ValuesAgree(last.value, f);
    }
  }

  /** What the fold and the column make of one value an operation carries. */
  lemma ValuesAgree(op: Op, f: Field)
    requires op.payload.Keys <= AllowedFields(op.kind) && f in op.payload
    ensures var v := op.payload[f];
      && (f != PlaceLat ==> Kept(f, Folded(op)[f]) == Kept(f, v))
      && (Folded(op)[f] == Kept(f, v) <==> !(f == PlaceLat && Skewed(op)) && (f == DeletedAt ==> OnMicrosecond(op)))
  {
    FoldedExactly(op);
    if f == DeletedAt {
      DeletionKept(op.payload[f]);
    }
  }

  lemma DeletionKept(v: Value)
    ensures Kept(DeletedAt, v) == v <==> (v.Stamp? && v.at.Some? ==> v.at.value % NANOS_PER_MICRO == 0)
  {
  }

  lemma RowsAgree(db: Db, e: Entity, id: ID)
    requires Sound(db)
    ensures SettledAt(Fold(db.log).value, e, id) == SettledAt(db.rows, e, id)
  {
    var r, rows := Fold(db.log).value, db.rows;
    assert Lookup(r, e, id).Some? <==> Lookup(rows, e, id).Some?;
    if Lookup(r, e, id).Some? {
      var x, y := Lookup(r, e, id).value, Lookup(rows, e, id).value;
      assert Author(RowOrBlank(r, e, id)) == Author(RowOrBlank(rows, e, id)) && VersionAt(r, e, id) == VersionAt(rows, e, id);
      forall f | f in Columns(e) ensures Column(Settled(x), f) == Column(Settled(y), f) {
        assert Column(RowOrBlank(r, e, id), f) == FoldedRegister(db.log, e, id, f);
        assert Column(RowOrBlank(rows, e, id), f) == StoredRegister(db.log, e, id, f);
        ColumnsSettle(db.log, e, id, f, x, y);
      }
      SameSettled(x, y);
    }
  }

  lemma ColumnsSettle(log: seq<Op>, e: Entity, id: ID, f: Field, x: Row, y: Row)
    requires OpsWellFormed(log) && f in Columns(e) && TableOf(x) == TableOf(y) == e
    requires Column(x, f) == FoldedRegister(log, e, id, f) && Column(y, f) == StoredRegister(log, e, id, f)
    ensures Column(Settled(x), f) == Column(Settled(y), f)
  {
    RegistersAgree(log, e, id, f);
    RegisterIsKept(log, e, id, f);
    SettledColumns(x, f);
    SettledColumns(y, f);
  }

  lemma SameSettled(x: Row, y: Row)
    requires TableOf(x) == TableOf(y) && Author(x) == Author(y) && Version(x) == Version(y)
    requires forall f :: f in Columns(TableOf(x)) ==> Column(Settled(x), f) == Column(Settled(y), f)
    ensures Settled(x) == Settled(y)
  {
    var f :| f in Columns(TableOf(x));
    SettledColumns(x, f);
    SettledColumns(y, f);
    RowDetermined(Settled(x), Settled(y));
  }

  /** The fold of a sound log is the database but for latitudes and nanoseconds. */
  lemma FoldAgrees(db: Db)
    requires Sound(db)
    ensures Fold(db.log).Ok? && Agree(Fold(db.log).value, db.rows)
  {
    forall e, id ensures SettledAt(Fold(db.log).value, e, id) == SettledAt(db.rows, e, id) {
      RowsAgree(db, e, id);
    }
  }

  // ----- exactly -----

  /** A deletion time the operation carries is a whole number of microseconds. */
  predicate OnMicrosecond(op: Op) {
    DeletedAt in op.payload && op.payload[DeletedAt].Stamp? && op.payload[DeletedAt].at.Some? ==>
      op.payload[DeletedAt].at.value % NANOS_PER_MICRO == 0
  }

  /** Of every option, the last operation to name its latitude does not also carry another longitude; and of every deleted
      entity, the deletion is on a microsecond. */
  ghost predicate Faithful(log: seq<Op>) {
    && (forall id :: LastNaming(log, OptionEntity, id, PlaceLat).Some? ==>
          !Skewed(LastNaming(log, OptionEntity, id, PlaceLat).value))
    && (forall e, id :: LastNaming(log, e, id, DeletedAt).Some? ==> OnMicrosecond(LastNaming(log, e, id, DeletedAt).value))
  }

  lemma SameLookups(r: Replica, rows: Replica)
    requires r.seqno == rows.seqno && forall e, id :: Lookup(r, e, id) == Lookup(rows, e, id)
    ensures r == rows
  {
    forall id ensures id in r.days <==> id in rows.days {
      assert Lookup(r, DayEntity, id) == Lookup(rows, DayEntity, id);
    }
    forall id ensures id in r.slots <==> id in rows.slots {
      assert Lookup(r, SlotEntity, id) == Lookup(rows, SlotEntity, id);
    }
    forall id ensures id in r.options <==> id in rows.options {
      assert Lookup(r, OptionEntity, id) == Lookup(rows, OptionEntity, id);
    }
    forall id ensures id in r.votes <==> id in rows.votes {
      assert Lookup(r, VoteEntity, id) == Lookup(rows, VoteEntity, id);
    }
    forall id ensures id in r.budgets <==> id in rows.budgets {
      assert Lookup(r, BudgetEntity, id) == Lookup(rows, BudgetEntity, id);
    }
    assert r.days == rows.days by {
      forall id | id in r.days ensures r.days[id] == rows.days[id] {
        assert Lookup(r, DayEntity, id) == Lookup(rows, DayEntity, id);
      }
    }
    assert r.slots == rows.slots by {
      forall id | id in r.slots ensures r.slots[id] == rows.slots[id] {
        assert Lookup(r, SlotEntity, id) == Lookup(rows, SlotEntity, id);
      }
    }
    assert r.options == rows.options by {
      forall id | id in r.options ensures r.options[id] == rows.options[id] {
        assert Lookup(r, OptionEntity, id) == Lookup(rows, OptionEntity, id);
      }
    }
    assert r.votes == rows.votes by {
      forall id | id in r.votes ensures r.votes[id] == rows.votes[id] {
        assert Lookup(r, VoteEntity, id) == Lookup(rows, VoteEntity, id);
      }
    }
    assert r.budgets == rows.budgets by {
      forall id | id in r.budgets ensures r.budgets[id] == rows.budgets[id] {
        assert Lookup(r, BudgetEntity, id) == Lookup(rows, BudgetEntity, id);
      }
    }
  }

  lemma FaithfulRow(db: Db, e: Entity, id: ID)
    requires Sound(db) && Faithful(db.log)
    ensures Lookup(Fold(db.log).value, e, id) == Lookup(db.rows, e, id)
  {
    var r, rows := Fold(db.log).value, db.rows;
    assert Lookup(r, e, id).Some? <==> Lookup(rows, e, id).Some?;
    if Lookup(r, e, id).Some? {
      var x, y := Lookup(r, e, id).value, Lookup(rows, e, id).value;
      assert Author(RowOrBlank(r, e, id)) == Author(RowOrBlank(rows, e, id)) && VersionAt(r, e, id) == VersionAt(rows, e, id);
      forall f | f in Columns(e) ensures Column(x, f) == Column(y, f) {
        RegistersAgree(db.log, e, id, f);
        OnlyOptionsHavePlaces(e, f);
        assert Column(RowOrBlank(r, e, id), f) == FoldedRegister(db.log, e, id, f);
        assert Column(RowOrBlank(rows, e, id), f) == StoredRegister(db.log, e, id, f);
      }
      RowDetermined(x, y);
    }
  }

  lemma OnlyOptionsHavePlaces(e: Entity, f: Field)
    ensures f in Columns(e) && f == PlaceLat ==> e == OptionEntity
    ensures f == DeletedAt ==> (f in Columns(e) <==> !e.VoteEntity?)
  {
  }

  lemma ExactRegister(db: Db, e: Entity, id: ID, f: Field)
    requires Sound(db) && Fold(db.log) == Ok(db.rows) && f in Columns(e)
    ensures FoldedRegister(db.log, e, id, f) == StoredRegister(db.log, e, id, f)
  {
    assert Column(RowOrBlank(db.rows, e, id), f) == FoldedRegister(db.log, e, id, f);
    assert Column(RowOrBlank(db.rows, e, id), f) == StoredRegister(db.log, e, id, f);
  }

  lemma VotesAreNotDeleted(log: seq<Op>, id: ID)
    requires OpsWellFormed(log)
    ensures LastNaming(log, VoteEntity, id, DeletedAt).None?
  {
    if LastNaming(log, VoteEntity, id, DeletedAt).Some? {
      LoggedIsWellFormed(log, VoteEntity, id, DeletedAt);
      NoVoteIsDeleted(LastNaming(log, VoteEntity, id, DeletedAt).value);
    }
  }

  lemma NoVoteIsDeleted(op: Op)
    requires OpWellFormed(op) && EntityOf(op.kind).VoteEntity?
    ensures DeletedAt !in op.payload
  {
    assert DeletedAt !in op.payload.Keys;
  }

  /** The fold of a sound log is the database exactly when the log is faithful. */
  lemma FoldIsRowsExactly(db: Db)
    requires Sound(db)
    ensures Fold(db.log) == Ok(db.rows) <==> Faithful(db.log)
  {
    if Faithful(db.log) {
      forall e, id ensures Lookup(Fold(db.log).value, e, id) == Lookup(db.rows, e, id) {
        FaithfulRow(db, e, id);
      }
      SameLookups(Fold(db.log).value, db.rows);
    }
    if Fold(db.log) == Ok(db.rows) {
      forall id | LastNaming(db.log, OptionEntity, id, PlaceLat).Some?
        ensures !Skewed(LastNaming(db.log, OptionEntity, id, PlaceLat).value)
      {
        ExactRegister(db, OptionEntity, id, PlaceLat);
        RegistersAgree(db.log, OptionEntity, id, PlaceLat);
      }
      forall e, id | LastNaming(db.log, e, id, DeletedAt).Some?
        ensures OnMicrosecond(LastNaming(db.log, e, id, DeletedAt).value)
      {
        if e == VoteEntity {
          VotesAreNotDeleted(db.log, id);
        } else {
          ExactRegister(db, e, id, DeletedAt);
          RegistersAgree(db.log, e, id, DeletedAt);
        }
      }
    }
  }

  // ----- call by call -----

  /** An operation the fold decodes as it was written and the tables keep as it was logged. */
  predicate Plain(op: Op) {
    !Skewed(op) && OnMicrosecond(op)
  }

  lemma {:induction false} FaithfulSnoc(log: seq<Op>, op: Op)
    requires Faithful(log)
    ensures Faithful(log + [op]) <==> Plain(op)
  {
    var all, e := log + [op], EntityOf(op.kind);
    assert all[..|log|] == log;
    if Faithful(all) {
      assert PlaceLat in op.payload && e == OptionEntity ==> LastNaming(all, OptionEntity, op.entity, PlaceLat) == Some(op);
      assert DeletedAt in op.payload ==> LastNaming(all, e, op.entity, DeletedAt) == Some(op);
    }
    if Plain(op) {
      forall id | LastNaming(all, OptionEntity, id, PlaceLat).Some?
        ensures !Skewed(LastNaming(all, OptionEntity, id, PlaceLat).value)
      {
        assert LastNaming(all, OptionEntity, id, PlaceLat) in {Some(op), LastNaming(log, OptionEntity, id, PlaceLat)};
      }
      forall e, id | LastNaming(all, e, id, DeletedAt).Some? ensures OnMicrosecond(LastNaming(all, e, id, DeletedAt).value) {
        assert LastNaming(all, e, id, DeletedAt) in {Some(op), LastNaming(log, e, id, DeletedAt)};
      }
    }
  }

  /** An operation that names neither a latitude nor a deletion time changes nothing about that. */
  lemma {:induction false} UnaffectedSnoc(log: seq<Op>, op: Op)
    requires PlaceLat !in op.payload && DeletedAt !in op.payload
    ensures Faithful(log + [op]) <==> Faithful(log)
  {
    var all := log + [op];
    assert all[..|log|] == log;
    assert forall e, id :: LastNaming(all, e, id, PlaceLat) == LastNaming(log, e, id, PlaceLat);
    assert forall e, id :: LastNaming(all, e, id, DeletedAt) == LastNaming(log, e, id, DeletedAt);
  }

  /** Not two different coordinates. */
  predicate Level(content: OptionContent) {
    content.lat.Some? && content.lng.Some? ==> content.lat == content.lng
  }

  /** What a caller can see of a call: it gives no option two different coordinates at once, and deletes nothing between two
      microseconds. */
  predicate Harmless(call: Call) {
    match call.intent
    case CreateOption(_, _, content) => Level(content)
    case EditOption(_, fields, content, _) =>
      {PlaceLat, PlaceLng} <= MaskFor(OptionEdit, fields) ==> Level(content)
    case DeleteDay(_, _) | DeleteSlot(_, _) | DeleteOption(_, _) | DeleteBudget(_, _) => call.now % NANOS_PER_MICRO == 0
    case _ => true
  }

  /** The first operation of a call whose first statement wrote w. */
  function FirstOp(call: Call, plan: Planned, w: Written, seqno: nat): Op
    requires PayloadOf(Recorded(plan, w), plan.mask).Some?
  {
    OpOf(call, DraftOf(plan.kind, w.id, plan.mask, Recorded(plan, w), true), seqno)
  }

  lemma FirstOpShows(call: Call, db: Db, plan: Planned, w: Written, seqno: nat)
    requires Consistent(db) && Refusal(call.intent).None?
    requires Plan(call, db) == Ok(plan) && Execute(plan.stmt, call.fieldsValid, db) == Ok(w)
    ensures PayloadOf(Recorded(plan, w), plan.mask).Some?
    ensures var op := FirstOp(call, plan, w, seqno);
      && op.payload.Keys == plan.mask && op.kind == plan.kind && op.entity == w.id && TableOf(Recorded(plan, w)) == EntityOf(op.kind)
      && forall f :: f in plan.mask ==> Column(Recorded(plan, w), f) == Some(op.payload[f])
  {
    PlanFits(call, db, plan, w);
    AllowedAreColumns(plan.kind);
    PayloadExists(Recorded(plan, w), plan.mask);
  }

  lemma PlanCoordinates(call: Call, db: Db, plan: Planned, w: Written)
    requires Refusal(call.intent).None?
    requires Plan(call, db) == Ok(plan) && Execute(plan.stmt, call.fieldsValid, db) == Ok(w)
    ensures (EntityOf(plan.kind).OptionEntity? && PlaceLat in plan.mask && PlaceLng in plan.mask) ==>
      && w.row.OptionRow? && plan.source.Returned? && !plan.kind.OptionDelete?
      && ((call.intent.CreateOption? && plan.kind.OptionCreate?)
          || (call.intent.EditOption? && plan.mask == MaskFor(OptionEdit, call.intent.fields)))
      && w.row.option.lat == call.intent.option.lat && w.row.option.lng == call.intent.option.lng
    ensures call.intent.CreateOption? ==> EntityOf(plan.kind).OptionEntity? && plan.mask == AllowedFields(OptionCreate)
    ensures call.intent.EditOption? ==>
      EntityOf(plan.kind).OptionEntity? && plan.mask == MaskFor(OptionEdit, call.intent.fields)
  {
  }

  predicate IsDelete(intent: Intent) {
    intent.DeleteDay? || intent.DeleteSlot? || intent.DeleteOption? || intent.DeleteBudget?
  }

  lemma PlannedKind(call: Call, db: Db, plan: Planned)
    requires Plan(call, db) == Ok(plan)
    ensures IsDelete(call.intent) <==>
      plan.kind.DayDelete? || plan.kind.SlotDelete? || plan.kind.OptionDelete? || plan.kind.BudgetDelete?
  {
  }

  lemma MaskedDeletions(mask: FieldMask, kind: OpKind)
    requires MaskValid(mask, kind)
    ensures kind.DayDelete? || kind.SlotDelete? || kind.OptionDelete? || kind.BudgetDelete? <==> DeletedAt in mask
    ensures DeletedAt in mask ==> PlaceLat !in mask
  {
    if DeletedAt !in mask {
      var f :| f in mask;
      assert f in AllowedFields(kind);
    }
  }

  lemma PlanDeletions(call: Call, db: Db, plan: Planned, w: Written)
    requires Consistent(db) && Refusal(call.intent).None?
    requires Plan(call, db) == Ok(plan) && Execute(plan.stmt, call.fieldsValid, db) == Ok(w)
    ensures IsDelete(call.intent) <==> DeletedAt in plan.mask
    ensures IsDelete(call.intent) ==> PlaceLat !in plan.mask
    ensures IsDelete(call.intent) ==> Column(Recorded(plan, w), DeletedAt) == Some(Stamp(Some(call.now)))
  {
    PlanFits(call, db, plan, w);
    PlannedKind(call, db, plan);
    MaskedDeletions(plan.mask, plan.kind);
    if IsDelete(call.intent) {
      PlannedTombstone(call, db, plan);
    }
  }

  lemma PlannedTombstone(call: Call, db: Db, plan: Planned)
    requires IsDelete(call.intent) && Plan(call, db) == Ok(plan)
    ensures plan.source.Deleted? && Column(plan.source.tombstone, DeletedAt) == Some(Stamp(Some(call.now)))
  {
  }

  /** A call's first operation is plain exactly when the call is harmless. */
  lemma FirstOpPlain(call: Call, db: Db, plan: Planned, w: Written, seqno: nat)
    requires Consistent(db) && Refusal(call.intent).None?
    requires Plan(call, db) == Ok(plan) && Execute(plan.stmt, call.fieldsValid, db) == Ok(w)
    requires PayloadOf(Recorded(plan, w), plan.mask).Some?
    ensures Plain(FirstOp(call, plan, w, seqno)) <==> Harmless(call)
  {
    FirstOpShows(call, db, plan, w, seqno);
    PlanDeletions(call, db, plan, w);
    var op := FirstOp(call, plan, w, seqno);
    if IsDelete(call.intent) {
      DeletionPlain(op, plan.mask, Recorded(plan, w), call.now);
    } else {
      assert DeletedAt !in op.payload.Keys;
      PlanCoordinates(call, db, plan, w);
      CoordinatesPlain(op, plan.mask, Recorded(plan, w));
    }
  }

  lemma DeletionPlain(op: Op, mask: FieldMask, row: Row, now: Time)
    requires op.payload.Keys == mask && DeletedAt in mask && PlaceLat !in mask
    requires forall f :: f in mask ==> Column(row, f) == Some(op.payload[f])
    requires Column(row, DeletedAt) == Some(Stamp(Some(now)))
    ensures Plain(op) <==> now % NANOS_PER_MICRO == 0
  {
    assert DeletedAt in op.payload.Keys && PlaceLat !in op.payload.Keys;
    assert op.payload[DeletedAt] == Stamp(Some(now));
  }

  /** Two coordinates that are there and differ. */
  predicate Apart(lat: Option<real>, lng: Option<real>) {
    lat.Some? && lng.Some? && lat != lng
  }

  lemma CoordinatesPlain(op: Op, mask: FieldMask, row: Row)
    requires op.payload.Keys == mask && DeletedAt !in mask && TableOf(row) == EntityOf(op.kind)
    requires forall f :: f in mask ==> Column(row, f) == Some(op.payload[f])
    ensures Plain(op) <==> !(row.OptionRow? && PlaceLat in mask && PlaceLng in mask && Apart(row.option.lat, row.option.lng))
  {
    assert DeletedAt !in op.payload.Keys;
    assert PlaceLat in mask <==> PlaceLat in op.payload.Keys;
    assert PlaceLng in mask <==> PlaceLng in op.payload.Keys;
    if row.OptionRow? && PlaceLat in mask && PlaceLng in mask {
      assert Column(row, PlaceLat) == Some(op.payload[PlaceLat]) && Column(row, PlaceLng) == Some(op.payload[PlaceLng]);
    }
  }

  // ----- the log of a committed call -----

  lemma {:induction false} CompletionGrows(call: Call, pc: Pc, db: Db)
    requires Completion(call, pc, db).Committed?
    ensures db.log <= Completion(call, pc, db).db.log
    decreases Left(pc)
  {
    if !pc.Finished? && !pc.Failed? {
      CompletionStep(call, pc, db);
      var s := Next(call, pc, db);
      NextAppends(call, pc, db);
      CompletionGrows(call, s.pc, AffectAll(db, s.effects));
    }
  }

  lemma NextAppends(call: Call, pc: Pc, db: Db)
    requires !pc.Finished? && !pc.Failed?
    ensures db.log <= AffectAll(db, Next(call, pc, db).effects).log
  {
    LeftDecreases(call, pc, db);
    var effects := Next(call, pc, db).effects;
    if effects != [] {
      assert effects == [effects[0]];
      OneEffect(db, effects[0]);
    }
  }

  /** Between the first writing statement and the record of what it wrote there is at most a second read of the row. */
  lemma ToTheRecord(call: Call, db: Db, plan: Planned, w: Written)
    requires Consistent(db) && Refusal(call.intent).None?
    requires Plan(call, db) == Ok(plan) && Execute(plan.stmt, call.fieldsValid, db) == Ok(w)
    ensures var written := Affect(db, PutRow(w.id, w.row));
      Atomic(call, db) == Completion(call, Allocating(DraftOf(plan.kind, w.id, plan.mask, Recorded(plan, w), true)), written)
  {
    AtomicUnfolds(call, db);
    PlanFits(call, db, plan, w);
    if plan.source.Reread? {
      RereadToTheRecord(call, db, w, plan.kind, plan.mask);
    }
  }

  lemma RereadToTheRecord(call: Call, db: Db, w: Written, kind: OpKind, mask: FieldMask)
    requires w.row.SlotRow? && w.row.slot.deletedAt.None?
    ensures var written := Affect(db, PutRow(w.id, w.row));
      Completion(call, Rereading(kind, w.id, mask, true), written) ==
        Completion(call, Allocating(DraftOf(kind, w.id, mask, w.row, true)), written)
  {
    var written := Affect(db, PutRow(w.id, w.row));
    CompletionStep(call, Rereading(kind, w.id, mask, true), written);
    assert AffectAll(written, []) == written;
    assert Live(written, SlotEntity, w.id) == Ok(w.row);
  }

  lemma CommittedFirstOp(call: Call, db: Db, plan: Planned, w: Written)
    requires Consistent(db) && Refusal(call.intent).None? && Atomic(call, db).Committed?
    requires Plan(call, db) == Ok(plan) && Execute(plan.stmt, call.fieldsValid, db) == Ok(w)
    ensures PayloadOf(Recorded(plan, w), plan.mask).Some?
    ensures db.log + [FirstOp(call, plan, w, db.rows.seqno + 1)] <= Atomic(call, db).db.log
  {
    ToTheRecord(call, db, plan, w);
    PlanFits(call, db, plan, w);
    FirstOpShows(call, db, plan, w, db.rows.seqno + 1);
    var row := Recorded(plan, w);
    RecordedWrite(call, db, w, row, plan.kind, plan.mask);
    var draft, written := DraftOf(plan.kind, w.id, plan.mask, row, true), Affect(db, PutRow(w.id, w.row));
    CompletionGrows(call, AfterAppend(draft), Logged(written, OpOf(call, draft, db.rows.seqno + 1)));
  }

  /** Once its row is written, a call that is no option deletion has only its one operation left to record. */
  lemma RecordsAndEnds(call: Call, db: Db, plan: Planned, w: Written)
    requires Consistent(db) && Refusal(call.intent).None? && !call.intent.DeleteOption?
    requires Plan(call, db) == Ok(plan) && Execute(plan.stmt, call.fieldsValid, db) == Ok(w)
    ensures PayloadOf(Recorded(plan, w), plan.mask).Some?
    ensures Atomic(call, db) ==
      if FreshClientOp(call, db.log)
      then Committed(Logged(Affect(db, PutRow(w.id, w.row)), FirstOp(call, plan, w, db.rows.seqno + 1)))
      else RolledBack(AlreadyExists)
  {
    ToTheRecord(call, db, plan, w);
    PlanFits(call, db, plan, w);
    FirstOpShows(call, db, plan, w, db.rows.seqno + 1);
    PlannedCascade(call, db, plan);
    RecordedWrite(call, db, w, Recorded(plan, w), plan.kind, plan.mask);
  }

  lemma PlannedCascade(call: Call, db: Db, plan: Planned)
    requires Plan(call, db) == Ok(plan) && !call.intent.DeleteOption?
    ensures !plan.kind.OptionDelete?
  {
  }

  /** Any call but an option deletion commits exactly when its reads find what they need, its statement is accepted, and its
      client operation id is new; and then it has put one row and logged one operation. */
  lemma CommitsExactly(call: Call, db: Db)
    requires Consistent(db) && !call.intent.DeleteOption?
    ensures Atomic(call, db).Committed? <==>
      && Refusal(call.intent).None? && Plan(call, db).Ok?
      && Execute(Plan(call, db).value.stmt, call.fieldsValid, db).Ok?
      && FreshClientOp(call, db.log)
    ensures Atomic(call, db).Committed? ==>
      var w := Execute(Plan(call, db).value.stmt, call.fieldsValid, db).value;
      && Atomic(call, db).db.rows == Put(db.rows, w.id, w.row).(seqno := db.rows.seqno + 1)
      && |Atomic(call, db).db.log| == |db.log| + 1
  {
    if Refusal(call.intent).None? {
      AtomicUnfolds(call, db);
      if Plan(call, db).Ok? && Execute(Plan(call, db).value.stmt, call.fieldsValid, db).Ok? {
        var plan := Plan(call, db).value;
        var w := Execute(plan.stmt, call.fieldsValid, db).value;
        RecordsAndEnds(call, db, plan, w);
        LoggedShape(db, w, FirstOp(call, plan, w, db.rows.seqno + 1));
      }
    }
  }

  lemma LoggedShape(db: Db, w: Written, op: Op)
    ensures var after := Logged(Affect(db, PutRow(w.id, w.row)), op);
      && after.rows == Put(db.rows, w.id, w.row).(seqno := op.seqno) && after.log == db.log + [op]
  {
  }

  /** A committed call logs its first operation, and perhaps one that clears a selection. */
  lemma CommittedLog(call: Call, db: Db, plan: Planned, w: Written)
    requires Consistent(db) && Refusal(call.intent).None? && Atomic(call, db).Committed?
    requires Plan(call, db) == Ok(plan) && Execute(plan.stmt, call.fieldsValid, db) == Ok(w)
    ensures PayloadOf(Recorded(plan, w), plan.mask).Some?
    ensures var log, once := Atomic(call, db).db.log, db.log + [FirstOp(call, plan, w, db.rows.seqno + 1)];
      || log == once
      || (|log| == |once| + 1 && log == once + [log[|once|]] && log[|once|].payload.Keys <= {SelectedOptionID})
  {
    CommittedFirstOp(call, db, plan, w);
    CommittedKeepsConsistent(call, db);
    AddedAfterFirst(call, db.log, FirstOp(call, plan, w, db.rows.seqno + 1), Atomic(call, db).db.log);
  }

  lemma AddedAfterFirst(call: Call, before: seq<Op>, op: Op, log: seq<Op>)
    requires OpsWellFormed(log) && before + [op] <= log && CallAdds(call, log[|before|..])
    ensures var once := before + [op];
      || log == once
      || (|log| == |once| + 1 && log == once + [log[|once|]] && log[|once|].payload.Keys <= {SelectedOptionID})
  {
    var added := log[|before|..];
    if |added| == 2 {
      assert added[1] == log[|before| + 1] && OpWellFormed(log[|before| + 1]);
    }
  }

  lemma CommittedPlans(call: Call, db: Db)
    requires Atomic(call, db).Committed?
    ensures Refusal(call.intent).None? && Plan(call, db).Ok?
    ensures Execute(Plan(call, db).value.stmt, call.fieldsValid, db).Ok?
  {
    AtomicUnfolds(call, db);
  }

  lemma CommitKeepsFaithful(call: Call, db: Db)
    requires Consistent(db) && Atomic(call, db).Committed? && Faithful(db.log)
    ensures Faithful(Atomic(call, db).db.log) <==> Harmless(call)
  {
    CommittedPlans(call, db);
    var plan := Plan(call, db).value;
    var w := Execute(plan.stmt, call.fieldsValid, db).value;
    CommittedLog(call, db, plan, w);
    FirstOpPlain(call, db, plan, w, db.rows.seqno + 1);
    var op, log := FirstOp(call, plan, w, db.rows.seqno + 1), Atomic(call, db).db.log;
    FaithfulSnoc(db.log, op);
    if log != db.log + [op] {
      var second := log[|db.log| + 1];
      assert PlaceLat !in second.payload.Keys && DeletedAt !in second.payload.Keys;
      UnaffectedSnoc(db.log + [op], second);
    }
  }

  /** Where the fold of the log is the database, a committed call leaves it so exactly when the call is harmless. */
  lemma CallKeepsTheFoldExactly(call: Call, db: Db)
    requires Consistent(db) && Atomic(call, db).Committed? && Fold(db.log) == Ok(db.rows)
    ensures var after := Atomic(call, db).db; Fold(after.log) == Ok(after.rows) <==> Harmless(call)
  {
    CommittedKeepsConsistent(call, db);
    FoldIsRowsExactly(db);
    FoldIsRowsExactly(Atomic(call, db).db);
    CommitKeepsFaithful(call, db);
  }

  /** A new option with both coordinates: the table keeps both, the fold has the longitude twice. */
  lemma NewCoordinatesCollapse(call: Call, db: Db)
    requires Consistent(db) && Atomic(call, db).Committed? && call.intent.CreateOption?
    requires call.intent.option.lat.Some? && call.intent.option.lng.Some?
    ensures var after, id, given := Atomic(call, db).db, call.intent.id, call.intent.option;
      && id in after.rows.options && after.rows.options[id].lat == given.lat && after.rows.options[id].lng == given.lng
      && Fold(after.log).Ok? && id in Fold(after.log).value.options
      && Fold(after.log).value.options[id].lat == given.lng && Fold(after.log).value.options[id].lng == given.lng
  {
    CommittedPlans(call, db);
    var plan := Plan(call, db).value;
    var w := Execute(plan.stmt, call.fieldsValid, db).value;
    CommittedKeepsConsistent(call, db);
    SameId(call, db, plan, w);
    NewCoordinates(call, db, plan, w);
    CoordinatesShow(Atomic(call, db).db, w.id, w.row.option);
  }

  /** The registers a new option's coordinates leave. */
  lemma NewCoordinates(call: Call, db: Db, plan: Planned, w: Written)
    requires Consistent(db) && Atomic(call, db).Committed? && Refusal(call.intent).None? && call.intent.CreateOption?
    requires Plan(call, db) == Ok(plan) && Execute(plan.stmt, call.fieldsValid, db) == Ok(w)
    requires call.intent.option.lat.Some? && call.intent.option.lng.Some?
    ensures w.row.OptionRow? && w.row.option.lat == call.intent.option.lat && w.row.option.lng == call.intent.option.lng
    ensures var log, o := Atomic(call, db).db.log, w.row.option;
      && StoredRegister(log, OptionEntity, w.id, PlaceLat) == Some(Coordinate(o.lat))
      && StoredRegister(log, OptionEntity, w.id, PlaceLng) == Some(Coordinate(o.lng))
      && FoldedRegister(log, OptionEntity, w.id, PlaceLat) == Some(Coordinate(o.lng))
      && FoldedRegister(log, OptionEntity, w.id, PlaceLng) == Some(Coordinate(o.lng))
  {
    CommittedLog(call, db, plan, w);
    FirstOpShows(call, db, plan, w, db.rows.seqno + 1);
    NewOptionPlan(call, db, plan, w);
    CoordinatesLogged(Atomic(call, db).db.log, db.log, FirstOp(call, plan, w, db.rows.seqno + 1), w.row);
  }

  lemma CoordinatesLogged(log: seq<Op>, before: seq<Op>, op: Op, row: Row)
    requires row.OptionRow? && op.kind.OptionCreate? && op.payload.Keys == AllowedFields(OptionCreate)
    requires row.option.lat.Some? && row.option.lng.Some?
    requires forall f :: f in op.payload ==> Column(row, f) == Some(op.payload[f])
    requires log == before + [op]
      || (|log| == |before| + 2 && log == before + [op] + [log[|before| + 1]]
          && log[|before| + 1].payload.Keys <= {SelectedOptionID})
    ensures var o := row.option;
      && StoredRegister(log, OptionEntity, op.entity, PlaceLat) == Some(Coordinate(o.lat))
      && StoredRegister(log, OptionEntity, op.entity, PlaceLng) == Some(Coordinate(o.lng))
      && FoldedRegister(log, OptionEntity, op.entity, PlaceLat) == Some(Coordinate(o.lng))
      && FoldedRegister(log, OptionEntity, op.entity, PlaceLng) == Some(Coordinate(o.lng))
  {
    CoordinatesGiven(op, row);
    assert PlaceLat in op.payload.Keys && PlaceLng in op.payload.Keys;
    LastOfNew(log, before, op, PlaceLat);
    LastOfNew(log, before, op, PlaceLng);
    LastCoordinates(log, op, op.entity, row.option);
  }

  lemma LastCoordinates(log: seq<Op>, op: Op, id: ID, o: SlotOption)
    requires LastNaming(log, OptionEntity, id, PlaceLat) == LastNaming(log, OptionEntity, id, PlaceLng) == Some(op)
    requires op.payload[PlaceLat] == Coordinate(o.lat) && op.payload[PlaceLng] == Coordinate(o.lng)
    requires Folded(op)[PlaceLat] == Folded(op)[PlaceLng] == Coordinate(o.lng)
    ensures StoredRegister(log, OptionEntity, id, PlaceLat) == Some(Coordinate(o.lat))
    ensures StoredRegister(log, OptionEntity, id, PlaceLng) == Some(Coordinate(o.lng))
    ensures FoldedRegister(log, OptionEntity, id, PlaceLat) == Some(Coordinate(o.lng))
    ensures FoldedRegister(log, OptionEntity, id, PlaceLng) == Some(Coordinate(o.lng))
  {
  }

  lemma NewOptionPlan(call: Call, db: Db, plan: Planned, w: Written)
    requires call.intent.CreateOption?
    requires Plan(call, db) == Ok(plan) && Execute(plan.stmt, call.fieldsValid, db) == Ok(w)
    ensures plan.kind.OptionCreate? && plan.mask == AllowedFields(OptionCreate) && plan.source.Returned?
    ensures w.row.OptionRow? && w.row.option.lat == call.intent.option.lat && w.row.option.lng == call.intent.option.lng
  {
  }

  lemma SameId(call: Call, db: Db, plan: Planned, w: Written)
    requires call.intent.CreateOption?
    requires Plan(call, db) == Ok(plan) && Execute(plan.stmt, call.fieldsValid, db) == Ok(w)
    ensures w.id == call.intent.id
  {
  }

  lemma CoordinatesGiven(op: Op, row: Row)
    requires row.OptionRow? && op.kind.OptionCreate? && op.payload.Keys == AllowedFields(OptionCreate)
    requires row.option.lat.Some? && row.option.lng.Some?
    requires forall f :: f in op.payload ==> Column(row, f) == Some(op.payload[f])
    ensures op.payload[PlaceLat] == Coordinate(row.option.lat) && op.payload[PlaceLng] == Coordinate(row.option.lng)
    ensures Folded(op)[PlaceLat] == Folded(op)[PlaceLng] == Coordinate(row.option.lng)
  {
    assert PlaceLat in op.payload.Keys && PlaceLng in op.payload.Keys;
    assert Column(row, PlaceLat) == Some(op.payload[PlaceLat]) && Column(row, PlaceLng) == Some(op.payload[PlaceLng]);
    FoldedExactly(op);
  }

  /** The first operation of a call is the last to name its fields, whatever selection it clears besides. */
  lemma {:induction false} LastOfNew(log: seq<Op>, before: seq<Op>, op: Op, f: Field)
    requires f in op.payload && f != SelectedOptionID
    requires log == before + [op]
      || (|log| == |before| + 2 && log == before + [op] + [log[|before| + 1]]
          && log[|before| + 1].payload.Keys <= {SelectedOptionID})
    ensures LastNaming(log, EntityOf(op.kind), op.entity, f) == Some(op)
  {
    assert (before + [op])[..|before|] == before;
    if log != before + [op] {
      assert log[..|log| - 1] == before + [op];
      assert f !in log[|log| - 1].payload.Keys;
    }
  }

  lemma CoordinatesShow(db: Db, id: ID, o: SlotOption)
    requires Sound(db) && o.lng.Some?
    requires StoredRegister(db.log, OptionEntity, id, PlaceLat) == Some(Coordinate(o.lat))
    requires StoredRegister(db.log, OptionEntity, id, PlaceLng) == Some(Coordinate(o.lng))
    requires FoldedRegister(db.log, OptionEntity, id, PlaceLat) == Some(Coordinate(o.lng))
    requires FoldedRegister(db.log, OptionEntity, id, PlaceLng) == Some(Coordinate(o.lng))
    ensures id in db.rows.options && db.rows.options[id].lat == o.lat && db.rows.options[id].lng == o.lng
    ensures var r := Fold(db.log).value;
      id in r.options && r.options[id].lat == o.lng && r.options[id].lng == o.lng
  {
    var r := Fold(db.log).value;
    CoordinateColumns(db, id);
    PlacedAt(db.rows, id, o.lat, o.lng);
    PlacedAt(r, id, o.lng, o.lng);
  }

  lemma CoordinateColumns(db: Db, id: ID)
    requires Sound(db)
    ensures forall f :: f in {PlaceLat, PlaceLng} ==>
      && Column(RowOrBlank(db.rows, OptionEntity, id), f) == StoredRegister(db.log, OptionEntity, id, f)
      && Column(RowOrBlank(Fold(db.log).value, OptionEntity, id), f) == FoldedRegister(db.log, OptionEntity, id, f)
  {
    assert {PlaceLat, PlaceLng} <= Columns(OptionEntity);
    assert Registers(db) && FoldedRegisters(Fold(db.log).value, db.log);
  }

  lemma PlacedAt(r: Replica, id: ID, lat: Option<real>, lng: Option<real>)
    requires lng.Some?
    requires Column(RowOrBlank(r, OptionEntity, id), PlaceLat) == Some(Coordinate(lat))
    requires Column(RowOrBlank(r, OptionEntity, id), PlaceLng) == Some(Coordinate(lng))
    ensures id in r.options && r.options[id].lat == lat && r.options[id].lng == lng
  {
  }
}
