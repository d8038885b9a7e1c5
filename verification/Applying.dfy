/** Exactly what Replica.Apply refuses, and how much of the projection one operation touches (internal/domain/op.go). */
module Applying {
  import opened Outcomes
  import opened Domain
  import opened Folding
  import opened Lenses
  import opened Tables

  /** The wire form each field has. */
  predicate WellTyped(f: Field, v: Value) {
    match f
    case Title | Notes | KindOf | Position | Status | Label | ExternalURL | PlaceName | PlaceAddress | PlaceProviderID
       | Category => v.Text?
    case DayID | SlotID | UserID | OptionID | SelectedOptionID | StatusChangedBy | SlotOptionID | PaidBy => v.Ref?
    case StartTime | EndTime => v.Clock?
    case StatusChangedAt | DeletedAt | Date | IncurredOn => v.Stamp?
    case EstimatedCost => v.MaybeNumber?
    case PlaceLat | PlaceLng => v.Coordinate?
    case AmountMinor => v.Number?
    case Splits => v.SplitSet?
  }

  /** Every field of the entity that the payload carries has its wire form; other fields are not looked at. */
  predicate Readable(e: Entity, p: Payload) {
    forall f :: f in p && f in Columns(e) ==> WellTyped(f, p[f])
  }

  /** The operations that may name an entity for the first time. */
  predicate MayCreate(k: OpKind) {
    k.DayCreate? || k.SlotCreate? || k.OptionCreate? || k.VoteSet? || k.BudgetSet?
  }

  /** Assigning the fields in order gets to the end exactly when each of those present can be assigned. */
  lemma {:induction false} AssignAllEnds<E>(assign: (E, Field, Value) -> Option<E>, e: E, p: Payload, order: seq<Field>)
    requires forall x, f, v :: f in order ==> (assign(x, f, v).Some? <==> WellTyped(f, v))
    ensures AssignAll(assign, e, p, order).1 <==> forall f :: f in order && f in p ==> WellTyped(f, p[f])
    decreases |order|
  {
    if order != [] {
      var f, tail := order[0], order[1..];
      assert order == [f] + tail;
      assert forall g :: g in order <==> g == f || g in tail;
      if f !in p {
        AssignAllEnds(assign, e, p, tail);
      } else if assign(e, f, p[f]).Some? {
        AssignAllEnds(assign, assign(e, f, p[f]).value, p, tail);
      } else {
        assert f in order && f in p && !WellTyped(f, p[f]);
      }
    }
  }

  lemma SharedTypes(p: Payload, first: Field, second: Field, f: Field)
    requires f in p
    requires || (WellTyped(first, Stamp(None)) && WellTyped(second, Stamp(None)))
             || (WellTyped(first, Coordinate(None)) && WellTyped(second, Coordinate(None)))
    ensures WellTyped(f, Shared(p, first, second)[f]) <==> WellTyped(f, p[f])
  {
  }

  lemma DecodedTypes(e: Entity, p: Payload, f: Field)
    requires f in p
    ensures WellTyped(f, Decoded(e, p)[f]) <==> WellTyped(f, p[f])
  {
    match e
    case DayEntity => SharedTypes(p, Date, DeletedAt, f);
    case SlotEntity => SharedTypes(p, StatusChangedAt, DeletedAt, f);
    case OptionEntity => SharedTypes(p, PlaceLat, PlaceLng, f);
    case VoteEntity =>
    case BudgetEntity => SharedTypes(p, IncurredOn, DeletedAt, f);
  }

  lemma ReadableDecoded(e: Entity, p: Payload, order: seq<Field>)
    requires forall f :: f in order <==> f in Columns(e)
    ensures (forall f :: f in order && f in Decoded(e, p) ==> WellTyped(f, Decoded(e, p)[f])) <==> Readable(e, p)
  {
    forall f | f in p ensures f in Decoded(e, p) && (WellTyped(f, Decoded(e, p)[f]) <==> WellTyped(f, p[f])) {
      assert f in Decoded(e, p).Keys;
      DecodedTypes(e, p, f);
    }
    forall f | f in Decoded(e, p) ensures f in p {
      assert f in Decoded(e, p).Keys;
    }
  }

  lemma DayDecodes(d: Day, p: Payload)
    ensures AssignAll(AssignDay, d, Decoded(DayEntity, p), DAY_ORDER).1 <==> Readable(DayEntity, p)
  {
    AssignAllEnds(AssignDay, d, Decoded(DayEntity, p), DAY_ORDER);
    ReadableDecoded(DayEntity, p, DAY_ORDER);
  }

  lemma SlotDecodes(s: Slot, p: Payload)
    ensures AssignAll(AssignSlot, s, Decoded(SlotEntity, p), SLOT_ORDER).1 <==> Readable(SlotEntity, p)
  {
    AssignAllEnds(AssignSlot, s, Decoded(SlotEntity, p), SLOT_ORDER);
    ReadableDecoded(SlotEntity, p, SLOT_ORDER);
  }

  lemma OptionDecodes(o: SlotOption, p: Payload)
    ensures AssignAll(AssignOption, o, Decoded(OptionEntity, p), OPTION_ORDER).1 <==> Readable(OptionEntity, p)
  {
    AssignAllEnds(AssignOption, o, Decoded(OptionEntity, p), OPTION_ORDER);
    ReadableDecoded(OptionEntity, p, OPTION_ORDER);
  }

  lemma VoteDecodes(v: Vote, p: Payload)
    ensures AssignAll(AssignVote, v, p, VOTE_ORDER).1 <==> Readable(VoteEntity, p)
  {
    AssignAllEnds(AssignVote, v, p, VOTE_ORDER);
    ReadableDecoded(VoteEntity, p, VOTE_ORDER);
  }

  lemma BudgetDecodes(e: Budget, p: Payload)
    ensures AssignAll(AssignBudget, e, Decoded(BudgetEntity, p), BUDGET_ORDER).1 <==> Readable(BudgetEntity, p)
  {
    AssignAllEnds(AssignBudget, e, Decoded(BudgetEntity, p), BUDGET_ORDER);
    ReadableDecoded(BudgetEntity, p, BUDGET_ORDER);
  }

  /** What applying the next operation comes to. */
  ghost predicate Comes(r: Replica, op: Op, a: Applied) {
    var e := EntityOf(op.kind);
    && a.error == (if Lookup(r, e, op.entity).None? && !MayCreate(op.kind) then Some(UnknownEntity)
                   else if !Readable(e, op.payload) then Some(BadField)
                   else None)
    && (a.error == Some(UnknownEntity) ==> a.replica == r)
    && (a.error.None? ==> Lookup(a.replica, e, op.entity).Some? && Version(Lookup(a.replica, e, op.entity).value) == op.version)
    && (forall e', id :: e' != e || id != op.entity ==> Lookup(a.replica, e', id) == Lookup(r, e', id))
  }

  lemma DayComes(r: Replica, op: Op)
    requires EntityOf(op.kind).DayEntity?
    ensures Comes(r, op, ApplyDay(r, op)) && ApplyDay(r, op).replica.seqno == r.seqno
  {
    DayDecodes(if op.entity in r.days then r.days[op.entity] else BLANK_DAY, op.payload);
  }

  lemma SlotComes(r: Replica, op: Op)
    requires EntityOf(op.kind).SlotEntity?
    ensures Comes(r, op, ApplySlot(r, op)) && ApplySlot(r, op).replica.seqno == r.seqno
  {
    SlotDecodes(if op.entity in r.slots then r.slots[op.entity] else BlankSlot(op.actor), op.payload);
  }

  lemma OptionComes(r: Replica, op: Op)
    requires EntityOf(op.kind).OptionEntity?
    ensures Comes(r, op, ApplyOption(r, op)) && ApplyOption(r, op).replica.seqno == r.seqno
  {
    OptionDecodes(if op.entity in r.options then r.options[op.entity] else BlankOption(op.actor), op.payload);
  }

  lemma VoteComes(r: Replica, op: Op)
    requires EntityOf(op.kind).VoteEntity?
    ensures Comes(r, op, ApplyVote(r, op)) && ApplyVote(r, op).replica.seqno == r.seqno
  {
    VoteDecodes(if op.entity in r.votes then r.votes[op.entity] else BLANK_VOTE, op.payload);
  }

  lemma BudgetComes(r: Replica, op: Op)
    requires EntityOf(op.kind).BudgetEntity?
    ensures Comes(r, op, ApplyBudget(r, op)) && ApplyBudget(r, op).replica.seqno == r.seqno
  {
    BudgetDecodes(if op.entity in r.budgets then r.budgets[op.entity] else BlankBudget(op.actor), op.payload);
  }

  lemma CountedComes(r: Replica, op: Op, a: Applied)
    requires Comes(r, op, a) && a.error.None?
    ensures Comes(r, op, Applied(a.replica.(seqno := op.seqno), None))
  {
    var counted := a.replica.(seqno := op.seqno);
    forall e, id ensures Lookup(counted, e, id) == Lookup(a.replica, e, id) {
    }
  }

  /** The next operation is refused exactly when it names an entity it may not create, or carries a field of the entity in the
      wrong form; otherwise it is counted and its entity has its version. Whatever happens no other entity changes. */
  lemma ApplyNext(r: Replica, op: Op)
    requires op.seqno == r.seqno + 1
    ensures Comes(r, op, Apply(r, op))
    ensures Apply(r, op).replica.seqno == if Apply(r, op).error.None? then op.seqno else r.seqno
  {
    match EntityOf(op.kind)
    case DayEntity =>
      DayComes(r, op);
      if ApplyDay(r, op).error.None? { CountedComes(r, op, ApplyDay(r, op)); }
    case SlotEntity =>
      SlotComes(r, op);
      if ApplySlot(r, op).error.None? { CountedComes(r, op, ApplySlot(r, op)); }
    case OptionEntity =>
      OptionComes(r, op);
      if ApplyOption(r, op).error.None? { CountedComes(r, op, ApplyOption(r, op)); }
    case VoteEntity =>
      VoteComes(r, op);
      if ApplyVote(r, op).error.None? { CountedComes(r, op, ApplyVote(r, op)); }
    case BudgetEntity =>
      BudgetComes(r, op);
      if ApplyBudget(r, op).error.None? { CountedComes(r, op, ApplyBudget(r, op)); }
  }

  /** Out of turn nothing changes: a delivered operation is skipped without an error, one too far ahead is refused. */
  lemma ApplyOutOfTurn(r: Replica, op: Op)
    requires op.seqno != r.seqno + 1
    ensures Apply(r, op) == Applied(r, if op.seqno <= r.seqno then None else Some(Gap))
  {
  }
}
