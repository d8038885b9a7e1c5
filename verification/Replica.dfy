/** The reference fold of an operation log (internal/domain/op.go, Replica). */
module Folding {
  import opened Outcomes
  import opened ByteOrder
  import opened Domain

  // ----- assigning one decoded field; None is a decoding error -----

  function AssignDay(d: Day, f: Field, v: Value): Option<Day> {
    match f
    case Date => if v.Stamp? then Some(d.(date := v.at)) else None
    case Label => if v.Text? then Some(d.(caption := v.text)) else None
    case Position => if v.Text? then Some(d.(position := v.text)) else None
    case DeletedAt => if v.Stamp? then Some(d.(deletedAt := v.at)) else None
    case _ => Some(d)
  }

  function AssignSlot(s: Slot, f: Field, v: Value): Option<Slot> {
    match f
    case DayID => if v.Ref? then Some(s.(dayId := v.id)) else None
    case KindOf => if v.Text? then Some(s.(kind := v.text)) else None
    case Title => if v.Text? then Some(s.(title := v.text)) else None
    case Notes => if v.Text? then Some(s.(notes := v.text)) else None
    case StartTime => if v.Clock? then Some(s.(startTime := v.minutes)) else None
    case EndTime => if v.Clock? then Some(s.(endTime := v.minutes)) else None
    case Position => if v.Text? then Some(s.(position := v.text)) else None
    case SelectedOptionID => if v.Ref? then Some(s.(selected := v.id)) else None
    case Status => if v.Text? then Some(s.(status := v.text)) else None
    case StatusChangedAt => if v.Stamp? then Some(s.(changedAt := v.at)) else None
    case StatusChangedBy => if v.Ref? then Some(s.(changedBy := v.id)) else None
    case DeletedAt => if v.Stamp? then Some(s.(deletedAt := v.at)) else None
    case _ => Some(s)
  }

  /** A null slot id is skipped rather than assigned. */
  function AssignOption(o: SlotOption, f: Field, v: Value): Option<SlotOption> {
    match f
    case SlotID => if !v.Ref? then None else if v.id.None? then Some(o) else Some(o.(slotId := v.id.value))
    case Title => if v.Text? then Some(o.(title := v.text)) else None
    case Notes => if v.Text? then Some(o.(notes := v.text)) else None
    case ExternalURL => if v.Text? then Some(o.(url := v.text)) else None
    case EstimatedCost => if v.MaybeNumber? then Some(o.(cost := v.m)) else None
    case PlaceName => if v.Text? then Some(o.(placeName := v.text)) else None
    case PlaceAddress => if v.Text? then Some(o.(placeAddress := v.text)) else None
    case PlaceLat => if v.Coordinate? then Some(o.(lat := v.degrees)) else None
    case PlaceLng => if v.Coordinate? then Some(o.(lng := v.degrees)) else None
    case PlaceProviderID => if v.Text? then Some(o.(providerId := v.text)) else None
    case DeletedAt => if v.Stamp? then Some(o.(deletedAt := v.at)) else None
    case _ => Some(o)
  }

  function AssignVote(x: Vote, f: Field, v: Value): Option<Vote> {
    match f
    case SlotID => if !v.Ref? then None else if v.id.None? then Some(x) else Some(x.(slotId := v.id.value))
    case UserID => if !v.Ref? then None else if v.id.None? then Some(x) else Some(x.(userId := v.id.value))
    case OptionID => if v.Ref? then Some(x.(optionId := v.id)) else None
    case _ => Some(x)
  }

  /** The split set is replaced whole. */
  function AssignBudget(e: Budget, f: Field, v: Value): Option<Budget> {
    match f
    case Label => if v.Text? then Some(e.(caption := v.text)) else None
    case Category => if v.Text? then Some(e.(category := v.text)) else None
    case AmountMinor => if v.Number? then Some(e.(amount := v.n)) else None
    case SlotOptionID => if v.Ref? then Some(e.(slotOptionId := v.id)) else None
    case PaidBy => if v.Ref? then Some(e.(paidBy := v.id)) else None
    case IncurredOn => if v.Stamp? then Some(e.(incurredOn := v.at)) else None
    case Splits => if v.SplitSet? then Some(e.(splits := v.splits)) else None
    case DeletedAt => if v.Stamp? then Some(e.(deletedAt := v.at)) else None
    case _ => Some(e)
  }

  /** The order in which the apply functions look for the fields they know. */
  const DAY_ORDER: seq<Field> := [Label, Position, Date, DeletedAt]
  const SLOT_ORDER: seq<Field> := [DayID, KindOf, Title, Notes, Position, Status, StartTime, EndTime,
                                   SelectedOptionID, StatusChangedBy, StatusChangedAt, DeletedAt]
  const OPTION_ORDER: seq<Field> := [SlotID, Title, Notes, ExternalURL, PlaceName, PlaceAddress, PlaceProviderID,
                                     EstimatedCost, PlaceLat, PlaceLng, DeletedAt]
  const VOTE_ORDER: seq<Field> := [SlotID, UserID, OptionID]
  const BUDGET_ORDER: seq<Field> := [Label, Category, AmountMinor, SlotOptionID, PaidBy, IncurredOn, Splits, DeletedAt]

  /** Assigns every field the payload has, in order, and stops at the first that does not decode: what was
      assigned before it stays assigned. */
  function AssignAll<E>(assign: (E, Field, Value) -> Option<E>, e: E, payload: Payload, order: seq<Field>): (E, bool)
  {
    if order == [] then (e, true)
    else if order[0] !in payload then AssignAll(assign, e, payload, order[1..])
    else
      match assign(e, order[0], payload[order[0]])
      case None => (e, false)
      case Some(e') => AssignAll(assign, e', payload, order[1..])
  }

  // ----- two fields decoded through one variable -----

  /** Two values that are there and of one type. */
  predicate SameCell(v: Value, w: Value) {
    || (v.Coordinate? && w.Coordinate? && v.degrees.Some? && w.degrees.Some?)
    || (v.Stamp? && w.Stamp? && v.at.Some? && w.at.Some?)
  }

  /** Two nullable fields decoded one after the other into one pointer variable. The first field keeps the pointer; when
      neither is null the second is written through it, so both end with the second's value. */
  function Shared(p: Payload, first: Field, second: Field): (q: Payload)
    ensures q.Keys == p.Keys && forall f :: f in p && f != first ==> q[f] == p[f]
  {
    if first in p && second in p && SameCell(p[first], p[second]) then p[first := p[second]] else p
  }

  /** The payload's values as they come out of an entity's apply function, each of which, votes excepted, decodes two of
      its fields through one variable. A split set that does not decode stops a ledger entry's before the second. */
  function Decoded(e: Entity, p: Payload): (q: Payload)
    ensures q.Keys == p.Keys
  {
    match e
    case DayEntity => Shared(p, Date, DeletedAt)
    case SlotEntity => Shared(p, StatusChangedAt, DeletedAt)
    case OptionEntity => Shared(p, PlaceLat, PlaceLng)
    case VoteEntity => p
    case BudgetEntity => if Splits in p && !p[Splits].SplitSet? then p else Shared(p, IncurredOn, DeletedAt)
  }

  // ----- the projection -----

  datatype Replica = Replica(seqno: nat, days: map<ID, Day>, slots: map<ID, Slot>, options: map<ID, SlotOption>,
                             votes: map<ID, Vote>, budgets: map<ID, Budget>)

  const EMPTY: Replica := Replica(0, map[], map[], map[], map[], map[])

  datatype FoldError = Gap | UnknownEntity | BadField

  /** Apply's effect, which on a decoding error is not nothing: the entity keeps what was already assigned. */
  datatype Applied = Applied(replica: Replica, error: Option<FoldError>)

  const BLANK_DAY: Day := Day(None, [], [], 0, None)
  const BLANK_VOTE: Vote := Vote(NIL_ID, NIL_ID, None, 0)

  function BlankSlot(actor: Option<ID>): Slot {
    Slot(None, [], [], [], None, None, [], None, [], None, None, actor, 0, None)
  }

  function BlankOption(actor: Option<ID>): SlotOption {
    SlotOption(NIL_ID, [], [], [], None, [], [], None, None, [], actor, 0, None)
  }

  function BlankBudget(actor: Option<ID>): Budget {
    Budget([], [], 0, None, None, None, [], actor, 0, None)
  }

  function ApplyDay(r: Replica, op: Op): Applied {
    if op.entity !in r.days && !op.kind.DayCreate? then Applied(r, Some(UnknownEntity))
    else
      var d := if op.entity in r.days then r.days[op.entity] else BLANK_DAY;
      var (d', ok) := AssignAll(AssignDay, d, Decoded(DayEntity, op.payload), DAY_ORDER);
      if ok then Applied(r.(days := r.days[op.entity := d'.(version := op.version)]), None)
      else Applied(r.(days := r.days[op.entity := d']), Some(BadField))
  }

  function ApplySlot(r: Replica, op: Op): Applied {
    if op.entity !in r.slots && !op.kind.SlotCreate? then Applied(r, Some(UnknownEntity))
    else
      var s := if op.entity in r.slots then r.slots[op.entity] else BlankSlot(op.actor);
      var (s', ok) := AssignAll(AssignSlot, s, Decoded(SlotEntity, op.payload), SLOT_ORDER);
      if ok then Applied(r.(slots := r.slots[op.entity := s'.(version := op.version)]), None)
      else Applied(r.(slots := r.slots[op.entity := s']), Some(BadField))
  }

  function ApplyOption(r: Replica, op: Op): Applied {
    if op.entity !in r.options && !op.kind.OptionCreate? then Applied(r, Some(UnknownEntity))
    else
      var o := if op.entity in r.options then r.options[op.entity] else BlankOption(op.actor);
      var (o', ok) := AssignAll(AssignOption, o, Decoded(OptionEntity, op.payload), OPTION_ORDER);
      if ok then Applied(r.(options := r.options[op.entity := o'.(version := op.version)]), None)
      else Applied(r.(options := r.options[op.entity := o']), Some(BadField))
  }

  /** A vote has no creation operation: the first one to arrive creates it. */
  function ApplyVote(r: Replica, op: Op): Applied {
    var v := if op.entity in r.votes then r.votes[op.entity] else BLANK_VOTE;
    var (v', ok) := AssignAll(AssignVote, v, op.payload, VOTE_ORDER);
    if ok then Applied(r.(votes := r.votes[op.entity := v'.(version := op.version)]), None)
    else Applied(r.(votes := r.votes[op.entity := v']), Some(BadField))
  }

  function ApplyBudget(r: Replica, op: Op): Applied {
    if op.entity !in r.budgets && !op.kind.BudgetSet? then Applied(r, Some(UnknownEntity))
    else
      var e := if op.entity in r.budgets then r.budgets[op.entity] else BlankBudget(op.actor);
      var (e', ok) := AssignAll(AssignBudget, e, Decoded(BudgetEntity, op.payload), BUDGET_ORDER);
      if ok then Applied(r.(budgets := r.budgets[op.entity := e'.(version := op.version)]), None)
      else Applied(r.(budgets := r.budgets[op.entity := e']), Some(BadField))
  }

  /** Replica.Apply: redelivery is skipped, a gap refused. */
  function Apply(r: Replica, op: Op): Applied {
    if op.seqno <= r.seqno then Applied(r, None)
    else if op.seqno > r.seqno + 1 then Applied(r, Some(Gap))
    else
      var a := match EntityOf(op.kind)
        case DayEntity => ApplyDay(r, op)
        case SlotEntity => ApplySlot(r, op)
        case OptionEntity => ApplyOption(r, op)
        case VoteEntity => ApplyVote(r, op)
        case BudgetEntity => ApplyBudget(r, op);
      if a.error.Some? then a else Applied(a.replica.(seqno := op.seqno), None)
  }

  /** Fold. */
  function Fold(ops: seq<Op>): Result<Replica, FoldError> {
    if ops == [] then Ok(EMPTY)
    else
      match Fold(ops[..|ops| - 1])
      case Err(e) => Err(e)
      case Ok(r) =>
        var a := Apply(r, ops[|ops| - 1]);
        if a.error.Some? then Err(a.error.value) else Ok(a.replica)
  }

  lemma {:induction false} PrefixFolds(log: seq<Op>, n: nat)
    requires Fold(log).Ok? && n <= |log|
    ensures Fold(log[..n]).Ok?
  {
    if n == |log| {
      assert log[..n] == log;
    } else {
      PrefixFolds(log[..|log| - 1], n);
      assert log[..|log| - 1][..n] == log[..n];
    }
  }

  // ----- assigning a masked payload -----

  /** assign and value are a lens over the listed fields: assigning a value some entity shows makes this one show it,
      and changes no other field and nothing of the rest. */
  ghost predicate IsLens<E(!new), R(!new)>(assign: (E, Field, Value) -> Option<E>, value: (E, Field) -> Option<Value>,
                                           rest: E -> R, fields: set<Field>)
  {
    forall e: E, t: E, f: Field :: f in fields ==> Puts(assign, value, rest, fields, e, t, f)
  }

  ghost predicate Puts<E(!new), R(!new)>(assign: (E, Field, Value) -> Option<E>, value: (E, Field) -> Option<Value>,
                                         rest: E -> R, fields: set<Field>, e: E, t: E, f: Field)
  {
    && value(t, f).Some?
    && assign(e, f, value(t, f).value).Some?
    && value(assign(e, f, value(t, f).value).value, f) == value(t, f)
    && rest(assign(e, f, value(t, f).value).value) == rest(e)
    && forall g :: g in fields && g != f ==> value(assign(e, f, value(t, f).value).value, g) == value(e, g)
  }

  /** e after the masked fields of t are assigned to it: those fields as in t, the others as in e. */
  ghost predicate Merged<E(!new), R(!new)>(value: (E, Field) -> Option<Value>, rest: E -> R, fields: set<Field>,
                                           e: E, t: E, mask: set<Field>, m: E)
  {
    && rest(m) == rest(e)
    && forall f :: f in fields ==> value(m, f) == if f in mask then value(t, f) else value(e, f)
  }

  lemma {:induction false} AssignAllMerges<E(!new), R(!new)>(
      assign: (E, Field, Value) -> Option<E>, value: (E, Field) -> Option<Value>, rest: E -> R, fields: set<Field>,
      e: E, t: E, payload: Payload, order: seq<Field>)
    requires IsLens(assign, value, rest, fields)
    requires forall f :: f in order ==> f in fields
    requires forall f :: f in payload && f in order ==> value(t, f) == Some(payload[f])
    ensures AssignAll(assign, e, payload, order).1
    ensures Merged(value, rest, fields, e, t, (set f | f in order && f in payload), AssignAll(assign, e, payload, order).0)
  {
    if order != [] {
      var f, tail := order[0], order[1..];
      assert order == [f] + tail;
      if f !in payload {
        AssignAllMerges(assign, value, rest, fields, e, t, payload, tail);
        assert (set g | g in order && g in payload) == (set g | g in tail && g in payload);
      } else {
        assert Puts(assign, value, rest, fields, e, t, f);
        var e' := assign(e, f, payload[f]).value;
        AssignAllMerges(assign, value, rest, fields, e', t, payload, tail);
        assert (set g | g in order && g in payload) == (set g | g in tail && g in payload) + {f};
      }
    }
  }
}
