/** The five entity tables seen as one: a row of any of them, looked up and stored by entity kind and id. */
module Tables {
  import opened Outcomes
  import opened Domain
  import opened Folding
  import opened Lenses

  datatype Row =
    | DayRow(day: Day)
    | SlotRow(slot: Slot)
    | OptionRow(option: SlotOption)
    | VoteRow(vote: Vote)
    | BudgetRow(entry: Budget)

  function TableOf(row: Row): Entity {
    match row
    case DayRow(_) => DayEntity
    case SlotRow(_) => SlotEntity
    case OptionRow(_) => OptionEntity
    case VoteRow(_) => VoteEntity
    case BudgetRow(_) => BudgetEntity
  }

  function Lookup(r: Replica, e: Entity, id: ID): Option<Row> {
    match e
    case DayEntity => if id in r.days then Some(DayRow(r.days[id])) else None
    case SlotEntity => if id in r.slots then Some(SlotRow(r.slots[id])) else None
    case OptionEntity => if id in r.options then Some(OptionRow(r.options[id])) else None
    case VoteEntity => if id in r.votes then Some(VoteRow(r.votes[id])) else None
    case BudgetEntity => if id in r.budgets then Some(BudgetRow(r.budgets[id])) else None
  }

  function Put(r: Replica, id: ID, row: Row): Replica {
    match row
    case DayRow(d) => r.(days := r.days[id := d])
    case SlotRow(s) => r.(slots := r.slots[id := s])
    case OptionRow(o) => r.(options := r.options[id := o])
    case VoteRow(v) => r.(votes := r.votes[id := v])
    case BudgetRow(e) => r.(budgets := r.budgets[id := e])
  }

  /** What an entity starts from when an operation first names it. */
  function Blank(e: Entity, actor: Option<ID>): Row {
    match e
    case DayEntity => DayRow(BLANK_DAY)
    case SlotEntity => SlotRow(BlankSlot(actor))
    case OptionEntity => OptionRow(BlankOption(actor))
    case VoteEntity => VoteRow(BLANK_VOTE)
    case BudgetEntity => BudgetRow(BlankBudget(actor))
  }

  function Version(row: Row): nat {
    match row
    case DayRow(d) => d.version
    case SlotRow(s) => s.version
    case OptionRow(o) => o.version
    case VoteRow(v) => v.version
    case BudgetRow(e) => e.version
  }

  function Columns(e: Entity): set<Field> {
    match e
    case DayEntity => DAY_FIELDS
    case SlotEntity => SLOT_FIELDS
    case OptionEntity => OPTION_FIELDS
    case VoteEntity => VOTE_FIELDS
    case BudgetEntity => BUDGET_FIELDS
  }

  /** One column of a row, in its wire form. */
  function Column(row: Row, f: Field): Option<Value> {
    match row
    case DayRow(d) => DayValue(d, f)
    case SlotRow(s) => SlotValue(s, f)
    case OptionRow(o) => OptionValue(o, f)
    case VoteRow(v) => VoteValue(v, f)
    case BudgetRow(e) => BudgetField(e, f)
  }

  /** SlotPayload and its four siblings. */
  function PayloadOf(row: Row, mask: FieldMask): Option<Payload> {
    match row
    case DayRow(d) => DayPayload(d, mask)
    case SlotRow(s) => SlotPayload(s, mask)
    case OptionRow(o) => OptionPayload(o, mask)
    case VoteRow(v) => VotePayload(v, mask)
    case BudgetRow(e) => BudgetPayload(e, mask)
  }

  /** Who the row says recorded it; days and votes do not say. */
  function Author(row: Row): Option<ID> {
    match row
    case SlotRow(s) => s.createdBy
    case OptionRow(o) => o.proposedBy
    case BudgetRow(e) => e.createdBy
    case _ => None
  }

  /** What a column keeps of a value given to it: a deletion time loses what is below a microsecond. */
  function Kept(f: Field, v: Value): Value {
    if f == DeletedAt && v.Stamp? && v.at.Some? then Stamp(Some(ToMicro(v.at.value))) else v
  }

  function KeptAt(at: Option<Time>): Option<Time> {
    match at
    case Some(t) => Some(ToMicro(t))
    case None => None
  }

  /** A row as the tables keep it. */
  function KeptRow(row: Row): Row {
    match row
    case DayRow(d) => DayRow(d.(deletedAt := KeptAt(d.deletedAt)))
    case SlotRow(s) => SlotRow(s.(deletedAt := KeptAt(s.deletedAt)))
    case OptionRow(o) => OptionRow(o.(deletedAt := KeptAt(o.deletedAt)))
    case VoteRow(_) => row
    case BudgetRow(e) => BudgetRow(e.(deletedAt := KeptAt(e.deletedAt)))
  }

  lemma KeptColumns(row: Row, f: Field)
    requires f in Columns(TableOf(row))
    ensures Column(row, f).Some? && Column(KeptRow(row), f) == Some(Kept(f, Column(row, f).value))
  {
    match row
    case DayRow(d) =>
    case SlotRow(s) => SlotDeletion(s, KeptAt(s.deletedAt), f);
    case OptionRow(o) => OptionDeletion(o, KeptAt(o.deletedAt), f);
    case VoteRow(_) =>
    case BudgetRow(e) => BudgetDeletion(e, KeptAt(e.deletedAt), f);
  }

  lemma SlotDeletion(s: Slot, at: Option<Time>, f: Field)
    requires f in SLOT_FIELDS
    ensures SlotValue(s, f).Some?
    ensures SlotValue(s.(deletedAt := at), f) == if f == DeletedAt then Some(Stamp(at)) else SlotValue(s, f)
  {
  }

  lemma OptionDeletion(o: SlotOption, at: Option<Time>, f: Field)
    requires f in OPTION_FIELDS
    ensures OptionValue(o, f).Some?
    ensures OptionValue(o.(deletedAt := at), f) == if f == DeletedAt then Some(Stamp(at)) else OptionValue(o, f)
  {
  }

  lemma BudgetDeletion(e: Budget, at: Option<Time>, f: Field)
    requires f in BUDGET_FIELDS
    ensures BudgetField(e, f).Some?
    ensures BudgetField(e.(deletedAt := at), f) == if f == DeletedAt then Some(Stamp(at)) else BudgetField(e, f)
  {
  }

  /** The splits of a ledger row are read back in user id order. */
  predicate Normal(row: Row) {
    row.BudgetRow? ==> InUserOrder(row.entry.splits)
  }

  /** Two rows of one table that differ at most in the masked columns and the version. */
  ghost predicate AgreeOutside(x: Row, y: Row, mask: FieldMask) {
    && TableOf(x) == TableOf(y)
    && Author(x) == Author(y)
    && forall f :: f in Columns(TableOf(x)) && f !in mask ==> Column(x, f) == Column(y, f)
  }

  predicate Creates(k: OpKind) {
    k.DayCreate? || k.SlotCreate? || k.OptionCreate? || k.VoteSet? || k.BudgetSet?
  }

  /** The row an operation lands on: the one that is there, or a blank one. */
  function Before(r: Replica, op: Op): Row {
    match Lookup(r, EntityOf(op.kind), op.entity)
    case Some(row) => row
    case None => Blank(EntityOf(op.kind), op.actor)
  }

  lemma PutThenLookup(r: Replica, id: ID, row: Row, e: Entity, i: ID)
    ensures Lookup(Put(r, id, row), e, i) == if e == TableOf(row) && i == id then Some(row) else Lookup(r, e, i)
  {
  }

  lemma AllowedAreColumns(k: OpKind)
    ensures AllowedFields(k) <= Columns(EntityOf(k))
  {
  }

  /** A row is its author, its version and its columns. */
  lemma RowDetermined(x: Row, y: Row)
    requires TableOf(x) == TableOf(y) && Author(x) == Author(y) && Version(x) == Version(y)
    requires forall f :: f in Columns(TableOf(x)) ==> Column(x, f) == Column(y, f)
    ensures x == y
  {
    match x
    case DayRow(d) =>
      forall f | f in DAY_FIELDS ensures DayValue(d, f) == DayValue(y.day, f) {
        assert Column(x, f) == Column(y, f);
      }
      DayDetermined(d, y.day);
    case SlotRow(s) =>
      forall f | f in SLOT_FIELDS ensures SlotValue(s, f) == SlotValue(y.slot, f) {
        assert Column(x, f) == Column(y, f);
      }
      SlotDetermined(s, y.slot);
    case OptionRow(o) =>
      forall f | f in OPTION_FIELDS ensures OptionValue(o, f) == OptionValue(y.option, f) {
        assert Column(x, f) == Column(y, f);
      }
      OptionDetermined(o, y.option);
    case VoteRow(v) =>
      forall f | f in VOTE_FIELDS ensures VoteValue(v, f) == VoteValue(y.vote, f) {
        assert Column(x, f) == Column(y, f);
      }
      VoteDetermined(v, y.vote);
    case BudgetRow(e) =>
      forall f | f in BUDGET_FIELDS ensures BudgetField(e, f) == BudgetField(y.entry, f) {
        assert Column(x, f) == Column(y, f);
      }
      BudgetDetermined(e, y.entry);
  }

  lemma PayloadExists(row: Row, mask: FieldMask)
    requires mask <= Columns(TableOf(row)) && Normal(row)
    ensures PayloadOf(row, mask).Some? && PayloadOf(row, mask).value.Keys == mask
    ensures forall f :: f in mask ==> Column(row, f) == Some(PayloadOf(row, mask).value[f])
  {
    ColumnsShow(row);
    match row
    case DayRow(_) =>
    case SlotRow(_) =>
    case OptionRow(_) =>
    case VoteRow(_) =>
    case BudgetRow(e) => BudgetPayloadShows(e, mask);
  }

  lemma ColumnsShow(row: Row)
    ensures forall f :: f in Columns(TableOf(row)) ==> Column(row, f).Some?
  {
  }

  // ----- folding an operation built from a row -----

  /** op carries the masked fields of row, and its version. */
  predicate Describes(op: Op, row: Row) {
    && TableOf(row) == EntityOf(op.kind)
    && op.version == Version(row)
    && PayloadOf(row, op.fields) == Some(op.payload)
  }

  /** The values an operation's payload has once its apply function has decoded it. */
  function Folded(op: Op): (p: Payload)
    ensures p.Keys == op.payload.Keys
  {
    Decoded(EntityOf(op.kind), op.payload)
  }

  /** An option operation that carries both coordinates, and different ones. */
  predicate Skewed(op: Op) {
    && EntityOf(op.kind).OptionEntity?
    && PlaceLat in op.payload && PlaceLng in op.payload
    && SameCell(op.payload[PlaceLat], op.payload[PlaceLng]) && op.payload[PlaceLat] != op.payload[PlaceLng]
  }

  /** Of all operations the masks allow, only a skewed one has a value changed by a shared variable, and only its
      latitude: it becomes the longitude. */
  lemma FoldedExactly(op: Op)
    requires op.payload.Keys <= AllowedFields(op.kind)
    ensures Folded(op) == if Skewed(op) then op.payload[PlaceLat := op.payload[PlaceLng]] else op.payload
    ensures Folded(op) == op.payload <==> !Skewed(op)
  {
    assert !(Date in op.payload.Keys && DeletedAt in op.payload.Keys);
    assert !(StatusChangedAt in op.payload.Keys && DeletedAt in op.payload.Keys);
    assert !(IncurredOn in op.payload.Keys && DeletedAt in op.payload.Keys);
    if Skewed(op) {
      assert op.payload[PlaceLat := op.payload[PlaceLng]][PlaceLat] != op.payload[PlaceLat];
    }
  }

  /** A row that an operation's folded values have been assigned to. */
  ghost predicate Lands(before: Row, op: Op, after: Row) {
    && TableOf(after) == TableOf(before) && Author(after) == Author(before) && Version(after) == op.version
    && forall f :: f in Columns(TableOf(before)) ==>
         Column(after, f) == if f in op.payload then Some(Folded(op)[f]) else Column(before, f)
  }

  /** A row that shows what the fold makes of an operation describing row. */
  function Seen(op: Op, row: Row): Row {
    if Skewed(op) && row.OptionRow? then OptionRow(row.option.(lat := row.option.lng)) else row
  }

  lemma SeenShows(op: Op, row: Row)
    requires Describes(op, row) && Normal(row) && op.fields <= AllowedFields(op.kind)
    ensures TableOf(Seen(op, row)) == TableOf(row) && op.payload.Keys == op.fields
    ensures forall f :: f in op.payload ==> Column(Seen(op, row), f) == Some(Folded(op)[f])
  {
    AllowedAreColumns(op.kind);
    PayloadExists(row, op.fields);
    FoldedExactly(op);
    forall f | f in op.payload.Keys ensures Column(Seen(op, row), f) == Some(Folded(op)[f]) {
      if Skewed(op) {
        SeenColumn(row.option, f);
        assert Column(row, PlaceLng) == Some(op.payload[PlaceLng]);
      }
    }
  }

  lemma SeenColumn(o: SlotOption, f: Field)
    ensures Column(OptionRow(o.(lat := o.lng)), f) == if f == PlaceLat then Some(Coordinate(o.lng)) else Column(OptionRow(o), f)
  {
  }

  lemma VersionIsNoColumn(x: Row, y: Row, f: Field)
    requires TableOf(x) == TableOf(y)
    requires match x
      case DayRow(d) => y.day == d.(version := y.day.version)
      case SlotRow(s) => y.slot == s.(version := y.slot.version)
      case OptionRow(o) => y.option == o.(version := y.option.version)
      case VoteRow(v) => y.vote == v.(version := y.vote.version)
      case BudgetRow(e) => y.entry == e.(version := y.entry.version)
    ensures Column(y, f) == Column(x, f)
  {
  }

  lemma DayLands(before: Day, seen: Day, op: Op)
    requires Folded(op).Keys <= DAY_FIELDS && forall f :: f in Folded(op) ==> Column(DayRow(seen), f) == Some(Folded(op)[f])
    ensures var (d, ok) := AssignAll(AssignDay, before, Folded(op), DAY_ORDER);
      ok && Lands(DayRow(before), op, DayRow(d.(version := op.version)))
  {
    var p := Folded(op);
    forall f | f in p ensures DayValue(seen, f) == Some(p[f]) {
      assert Column(DayRow(seen), f) == Some(p[f]);
    }
    DayFolds(before, seen, p);
    var d := AssignAll(AssignDay, before, p, DAY_ORDER).0;
    forall f | f in DAY_FIELDS
      ensures Column(DayRow(d.(version := op.version)), f) == if f in op.payload then Some(p[f]) else Column(DayRow(before), f)
    {
      VersionIsNoColumn(DayRow(d), DayRow(d.(version := op.version)), f);
    }
  }

  lemma SlotLands(before: Slot, seen: Slot, op: Op)
    requires Folded(op).Keys <= SLOT_FIELDS && forall f :: f in Folded(op) ==> Column(SlotRow(seen), f) == Some(Folded(op)[f])
    ensures var (s, ok) := AssignAll(AssignSlot, before, Folded(op), SLOT_ORDER);
      ok && Lands(SlotRow(before), op, SlotRow(s.(version := op.version)))
  {
    var p := Folded(op);
    forall f | f in p ensures SlotValue(seen, f) == Some(p[f]) {
      assert Column(SlotRow(seen), f) == Some(p[f]);
    }
    SlotFolds(before, seen, p);
    var s := AssignAll(AssignSlot, before, p, SLOT_ORDER).0;
    forall f | f in SLOT_FIELDS
      ensures Column(SlotRow(s.(version := op.version)), f) == if f in op.payload then Some(p[f]) else Column(SlotRow(before), f)
    {
      VersionIsNoColumn(SlotRow(s), SlotRow(s.(version := op.version)), f);
    }
  }

  lemma OptionLands(before: SlotOption, seen: SlotOption, op: Op)
    requires Folded(op).Keys <= OPTION_FIELDS && forall f :: f in Folded(op) ==> Column(OptionRow(seen), f) == Some(Folded(op)[f])
    ensures var (o, ok) := AssignAll(AssignOption, before, Folded(op), OPTION_ORDER);
      ok && Lands(OptionRow(before), op, OptionRow(o.(version := op.version)))
  {
    var p := Folded(op);
    forall f | f in p ensures OptionValue(seen, f) == Some(p[f]) {
      assert Column(OptionRow(seen), f) == Some(p[f]);
    }
    OptionFolds(before, seen, p);
    var o := AssignAll(AssignOption, before, p, OPTION_ORDER).0;
    forall f | f in OPTION_FIELDS
      ensures Column(OptionRow(o.(version := op.version)), f) == if f in op.payload then Some(p[f]) else Column(OptionRow(before), f)
    {
      VersionIsNoColumn(OptionRow(o), OptionRow(o.(version := op.version)), f);
    }
  }

  lemma VoteLands(before: Vote, seen: Vote, op: Op)
    requires Folded(op).Keys <= VOTE_FIELDS && forall f :: f in Folded(op) ==> Column(VoteRow(seen), f) == Some(Folded(op)[f])
    ensures var (v, ok) := AssignAll(AssignVote, before, Folded(op), VOTE_ORDER);
      ok && Lands(VoteRow(before), op, VoteRow(v.(version := op.version)))
  {
    var p := Folded(op);
    forall f | f in p ensures VoteValue(seen, f) == Some(p[f]) {
      assert Column(VoteRow(seen), f) == Some(p[f]);
    }
    VoteFolds(before, seen, p);
    var v := AssignAll(AssignVote, before, p, VOTE_ORDER).0;
    forall f | f in VOTE_FIELDS
      ensures Column(VoteRow(v.(version := op.version)), f) == if f in op.payload then Some(p[f]) else Column(VoteRow(before), f)
    {
      VersionIsNoColumn(VoteRow(v), VoteRow(v.(version := op.version)), f);
    }
  }

  lemma BudgetLands(before: Budget, seen: Budget, op: Op)
    requires Folded(op).Keys <= BUDGET_FIELDS && forall f :: f in Folded(op) ==> Column(BudgetRow(seen), f) == Some(Folded(op)[f])
    ensures var (e, ok) := AssignAll(AssignBudget, before, Folded(op), BUDGET_ORDER);
      ok && Lands(BudgetRow(before), op, BudgetRow(e.(version := op.version)))
  {
    var p := Folded(op);
    forall f | f in p ensures BudgetField(seen, f) == Some(p[f]) {
      assert Column(BudgetRow(seen), f) == Some(p[f]);
    }
    BudgetFolds(before, seen, p);
    var e := AssignAll(AssignBudget, before, p, BUDGET_ORDER).0;
    forall f | f in BUDGET_FIELDS
      ensures Column(BudgetRow(e.(version := op.version)), f) == if f in op.payload then Some(p[f]) else Column(BudgetRow(before), f)
    {
      VersionIsNoColumn(BudgetRow(e), BudgetRow(e.(version := op.version)), f);
    }
  }

  lemma DayApplied(r: Replica, op: Op)
    requires EntityOf(op.kind).DayEntity? && op.seqno == r.seqno + 1 && (Lookup(r, DayEntity, op.entity).None? ==> Creates(op.kind))
    requires AssignAll(AssignDay, Before(r, op).day, Folded(op), DAY_ORDER).1
    ensures var d := AssignAll(AssignDay, Before(r, op).day, Folded(op), DAY_ORDER).0;
      Apply(r, op) == Applied(Put(r, op.entity, DayRow(d.(version := op.version))).(seqno := op.seqno), None)
  {
  }

  lemma SlotApplied(r: Replica, op: Op)
    requires EntityOf(op.kind).SlotEntity? && op.seqno == r.seqno + 1 && (Lookup(r, SlotEntity, op.entity).None? ==> Creates(op.kind))
    requires AssignAll(AssignSlot, Before(r, op).slot, Folded(op), SLOT_ORDER).1
    ensures var s := AssignAll(AssignSlot, Before(r, op).slot, Folded(op), SLOT_ORDER).0;
      Apply(r, op) == Applied(Put(r, op.entity, SlotRow(s.(version := op.version))).(seqno := op.seqno), None)
  {
  }

  lemma OptionApplied(r: Replica, op: Op)
    requires EntityOf(op.kind).OptionEntity? && op.seqno == r.seqno + 1 && (Lookup(r, OptionEntity, op.entity).None? ==> Creates(op.kind))
    requires AssignAll(AssignOption, Before(r, op).option, Folded(op), OPTION_ORDER).1
    ensures var o := AssignAll(AssignOption, Before(r, op).option, Folded(op), OPTION_ORDER).0;
      Apply(r, op) == Applied(Put(r, op.entity, OptionRow(o.(version := op.version))).(seqno := op.seqno), None)
  {
  }

  lemma VoteApplied(r: Replica, op: Op)
    requires EntityOf(op.kind).VoteEntity? && op.seqno == r.seqno + 1
    requires AssignAll(AssignVote, Before(r, op).vote, Folded(op), VOTE_ORDER).1
    ensures var v := AssignAll(AssignVote, Before(r, op).vote, Folded(op), VOTE_ORDER).0;
      Apply(r, op) == Applied(Put(r, op.entity, VoteRow(v.(version := op.version))).(seqno := op.seqno), None)
  {
  }

  lemma BudgetApplied(r: Replica, op: Op)
    requires EntityOf(op.kind).BudgetEntity? && op.seqno == r.seqno + 1 && (Lookup(r, BudgetEntity, op.entity).None? ==> Creates(op.kind))
    requires AssignAll(AssignBudget, Before(r, op).entry, Folded(op), BUDGET_ORDER).1
    ensures var e := AssignAll(AssignBudget, Before(r, op).entry, Folded(op), BUDGET_ORDER).0;
      Apply(r, op) == Applied(Put(r, op.entity, BudgetRow(e.(version := op.version))).(seqno := op.seqno), None)
  {
  }

  /** Applying an operation that describes some row succeeds, and assigns exactly what the operation carries, as decoded, to
      the row it lands on, whatever that row held: no other field, no other row. */
  lemma OpLands(r: Replica, op: Op, row: Row)
    requires Describes(op, row) && Normal(row)
    requires op.fields <= AllowedFields(op.kind)
    requires Lookup(r, EntityOf(op.kind), op.entity).None? ==> Creates(op.kind)
    requires op.seqno == r.seqno + 1
    ensures var a := Apply(r, op); var landed := Lookup(a.replica, EntityOf(op.kind), op.entity);
      && a.error.None? && landed.Some? && Lands(Before(r, op), op, landed.value)
      && a.replica == Put(r, op.entity, landed.value).(seqno := op.seqno)
  {
    AllowedAreColumns(op.kind);
    SeenShows(op, row);
    var before, seen := Before(r, op), Seen(op, row);
    match row
    case DayRow(_) =>
      DayLands(before.day, seen.day, op);
      DayApplied(r, op);
      LandedThere(r, op, DayRow(AssignAll(AssignDay, before.day, Folded(op), DAY_ORDER).0.(version := op.version)));
    case SlotRow(_) =>
      SlotLands(before.slot, seen.slot, op);
      SlotApplied(r, op);
      LandedThere(r, op, SlotRow(AssignAll(AssignSlot, before.slot, Folded(op), SLOT_ORDER).0.(version := op.version)));
    case OptionRow(_) =>
      OptionLands(before.option, seen.option, op);
      OptionApplied(r, op);
      LandedThere(r, op, OptionRow(AssignAll(AssignOption, before.option, Folded(op), OPTION_ORDER).0.(version := op.version)));
    case VoteRow(_) =>
      VoteLands(before.vote, seen.vote, op);
      VoteApplied(r, op);
      LandedThere(r, op, VoteRow(AssignAll(AssignVote, before.vote, Folded(op), VOTE_ORDER).0.(version := op.version)));
    case BudgetRow(_) =>
      BudgetLands(before.entry, seen.entry, op);
      BudgetApplied(r, op);
      LandedThere(r, op, BudgetRow(AssignAll(AssignBudget, before.entry, Folded(op), BUDGET_ORDER).0.(version := op.version)));
  }

  lemma LandedThere(r: Replica, op: Op, landed: Row)
    requires TableOf(landed) == EntityOf(op.kind) && Apply(r, op) == Applied(Put(r, op.entity, landed).(seqno := op.seqno), None)
    ensures Lookup(Apply(r, op).replica, EntityOf(op.kind), op.entity) == Some(landed)
  {
  }

  /** Folding an operation that describes a row, over what differs from that row only in the masked fields, gives exactly
      that row unless the operation is skewed; and then it does not. */
  lemma FoldsToRow(r: Replica, op: Op, row: Row)
    requires Describes(op, row) && Normal(row)
    requires op.fields <= AllowedFields(op.kind)
    requires AgreeOutside(Before(r, op), row, op.fields)
    requires Lookup(r, EntityOf(op.kind), op.entity).None? ==> Creates(op.kind)
    requires op.seqno == r.seqno + 1
    ensures Apply(r, op) == Applied(Put(r, op.entity, row).(seqno := op.seqno), None) <==> !Skewed(op)
  {
    AllowedAreColumns(op.kind);
    OpLands(r, op, row);
    FoldedExactly(op);
    PayloadExists(row, op.fields);
    var landed := Lookup(Apply(r, op).replica, EntityOf(op.kind), op.entity).value;
    PutThenLookup(r, op.entity, row, EntityOf(op.kind), op.entity);
    if Skewed(op) {
      assert Column(landed, PlaceLat) == Some(op.payload[PlaceLng]) != Column(row, PlaceLat);
      assert Lookup(Put(r, op.entity, row).(seqno := op.seqno), EntityOf(op.kind), op.entity) == Some(row);
    } else {
      RowDetermined(landed, row);
    }
  }

  lemma CoordinatesCollapse(op: Op, o: SlotOption)
    requires Describes(op, OptionRow(o)) && {PlaceLat, PlaceLng} <= op.fields <= AllowedFields(op.kind)
    requires o.lat.Some? && o.lng.Some?
    ensures PlaceLat in op.payload && PlaceLng in op.payload
    ensures Folded(op)[PlaceLat] == Folded(op)[PlaceLng] == Coordinate(o.lng)
  {
    AllowedAreColumns(op.kind);
    PayloadExists(OptionRow(o), op.fields);
    FoldedExactly(op);
    assert PlaceLat in op.payload.Keys && PlaceLng in op.payload.Keys;
    assert Column(OptionRow(o), PlaceLat) == Some(op.payload[PlaceLat]);
    assert Column(OptionRow(o), PlaceLng) == Some(op.payload[PlaceLng]);
  }

  /** An ordinary option create: the row is at 48 degrees north, 2 east; the fold puts it at 2 north, 2 east. */
  lemma LatitudeIsLost(op: Op, slotId: ID)
    requires op.kind.OptionCreate? && op.seqno == 1 && op.version == 1 && op.fields == AllowedFields(OptionCreate)
    requires var row := SlotOption(slotId, [], [], [], None, [], [], Some(48.0), Some(2.0), [], op.actor, 1, None);
      OptionPayload(row, op.fields) == Some(op.payload)
    ensures Apply(EMPTY, op).error.None? && op.entity in Apply(EMPTY, op).replica.options
    ensures var o := Apply(EMPTY, op).replica.options[op.entity]; o.lat == Some(2.0) && o.lng == Some(2.0)
  {
    var row := SlotOption(slotId, [], [], [], None, [], [], Some(48.0), Some(2.0), [], op.actor, 1, None);
    OpLands(EMPTY, op, OptionRow(row));
    CoordinatesCollapse(op, row);
    var landed := Lookup(Apply(EMPTY, op).replica, OptionEntity, op.entity).value;
    assert Column(landed, PlaceLat) == Some(Folded(op)[PlaceLat]) && Column(landed, PlaceLng) == Some(Folded(op)[PlaceLng]);
  }
}
