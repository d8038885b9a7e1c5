/** The synchronised entities, the operation vocabulary and its field masks (internal/domain/op.go, slot.go,
    option.go, budget.go). One trip; an instant is a count of nanoseconds; a JSON payload is a map from field to value. */
module Domain {
  import opened Outcomes
  import opened ByteOrder

  type ID = nat
  type Time = nat

  const NIL_ID: ID := 0

  const NANOS_PER_MICRO: nat := 1000

  /** What a timestamptz column keeps of an instant: whole microseconds. */
  function ToMicro(at: Time): (kept: Time)
    ensures kept <= at < kept + NANOS_PER_MICRO && kept % NANOS_PER_MICRO == 0
  {
    at - at % NANOS_PER_MICRO
  }

  datatype Field =
    | Title | Notes | KindOf | DayID | SlotID | UserID | OptionID | StartTime | EndTime | Position
    | SelectedOptionID | Status | StatusChangedAt | StatusChangedBy | DeletedAt | Date | Label
    | ExternalURL | EstimatedCost | PlaceName | PlaceAddress | PlaceLat | PlaceLng | PlaceProviderID
    | Category | AmountMinor | SlotOptionID | PaidBy | IncurredOn | Splits

  datatype Split = Split(user: ID, amount: int)

  /** A field's value as it stands in a payload. A nullable field carries its null. */
  datatype Value =
    | Text(text: Str)
    | Ref(id: Option<ID>)
    | Clock(minutes: Option<nat>)
    | Stamp(at: Option<Time>)
    | Number(n: int)
    | MaybeNumber(m: Option<int>)
    | Coordinate(degrees: Option<real>)
    | SplitSet(splits: seq<Split>)

  type FieldMask = set<Field>
  type Payload = map<Field, Value>

  datatype OpKind =
    | DayCreate | DayEdit | DayMove | DayDelete
    | SlotCreate | SlotEdit | SlotMove | SlotSelectOption | SlotSetStatus | SlotDelete
    | OptionCreate | OptionEdit | OptionDelete
    | VoteSet
    | BudgetSet | BudgetDelete

  datatype Entity = DayEntity | SlotEntity | OptionEntity | VoteEntity | BudgetEntity

  function EntityOf(k: OpKind): Entity {
    match k
    case DayCreate | DayEdit | DayMove | DayDelete => DayEntity
    case SlotCreate | SlotEdit | SlotMove | SlotSelectOption | SlotSetStatus | SlotDelete => SlotEntity
    case OptionCreate | OptionEdit | OptionDelete => OptionEntity
    case VoteSet => VoteEntity
    case BudgetSet | BudgetDelete => BudgetEntity
  }

  function AllowedFields(k: OpKind): FieldMask {
    match k
    case DayCreate => {Date, Label, Position}
    case DayEdit => {Date, Label}
    case DayMove => {Position}
    case SlotCreate => {DayID, KindOf, Title, Notes, StartTime, EndTime, Position, Status}
    case SlotEdit => {KindOf, Title, Notes, StartTime, EndTime}
    case SlotMove => {DayID, Position}
    case SlotSelectOption => {SelectedOptionID}
    case SlotSetStatus => {Status, StatusChangedAt, StatusChangedBy}
    case OptionCreate => {SlotID, Title, Notes, ExternalURL, EstimatedCost, PlaceName, PlaceAddress,
                          PlaceLat, PlaceLng, PlaceProviderID}
    case OptionEdit => {Title, Notes, ExternalURL, EstimatedCost, PlaceName, PlaceAddress,
                        PlaceLat, PlaceLng, PlaceProviderID}
    case VoteSet => {SlotID, UserID, OptionID}
    case BudgetSet => {Label, Category, AmountMinor, SlotOptionID, PaidBy, IncurredOn, Splits}
    case DayDelete | SlotDelete | OptionDelete | BudgetDelete => {DeletedAt}
  }

  predicate RequiresTotalMask(k: OpKind) {
    k.BudgetSet?
  }

  /** FieldMask.Validate. */
  predicate MaskValid(mask: FieldMask, k: OpKind) {
    && mask != {}
    && mask <= AllowedFields(k)
    && (RequiresTotalMask(k) ==> AllowedFields(k) <= mask)
  }

  /** maskFor: no named fields means every field the kind allows. */
  function MaskFor(k: OpKind, fields: FieldMask): FieldMask {
    if fields == {} then AllowedFields(k) else fields
  }

  datatype Op = Op(seqno: nat, actor: Option<ID>, kind: OpKind, entity: ID, fields: FieldMask,
                   payload: Payload, version: nat, clientOp: Option<ID>, causeOp: Option<ID>)

  // ----- entities -----

  datatype Day = Day(date: Option<Time>, caption: Str, position: Str, version: nat, deletedAt: Option<Time>)

  datatype Slot = Slot(dayId: Option<ID>, kind: Str, title: Str, notes: Str,
                       startTime: Option<nat>, endTime: Option<nat>, position: Str,
                       selected: Option<ID>, status: Str, changedAt: Option<Time>, changedBy: Option<ID>,
                       createdBy: Option<ID>, version: nat, deletedAt: Option<Time>)

  datatype SlotOption = SlotOption(slotId: ID, title: Str, notes: Str, url: Str, cost: Option<int>,
                                   placeName: Str, placeAddress: Str, lat: Option<real>, lng: Option<real>,
                                   providerId: Str, proposedBy: Option<ID>, version: nat, deletedAt: Option<Time>)

  datatype Vote = Vote(slotId: ID, userId: ID, optionId: Option<ID>, version: nat)

  datatype Budget = Budget(caption: Str, category: Str, amount: int, slotOptionId: Option<ID>, paidBy: Option<ID>,
                           incurredOn: Option<Time>, splits: seq<Split>, createdBy: Option<ID>,
                           version: nat, deletedAt: Option<Time>)

  // ----- payloads, always built from an entity -----

  /** DayValues and its four siblings: an entity's fields in their wire form, none for a field it does not have. */
  function DayValue(d: Day, f: Field): Option<Value> {
    match f
    case Date => Some(Stamp(d.date))
    case Label => Some(Text(d.caption))
    case Position => Some(Text(d.position))
    case DeletedAt => Some(Stamp(d.deletedAt))
    case _ => None
  }

  function SlotValue(s: Slot, f: Field): Option<Value> {
    match f
    case DayID => Some(Ref(s.dayId))
    case KindOf => Some(Text(s.kind))
    case Title => Some(Text(s.title))
    case Notes => Some(Text(s.notes))
    case StartTime => Some(Clock(s.startTime))
    case EndTime => Some(Clock(s.endTime))
    case Position => Some(Text(s.position))
    case SelectedOptionID => Some(Ref(s.selected))
    case Status => Some(Text(s.status))
    case StatusChangedAt => Some(Stamp(s.changedAt))
    case StatusChangedBy => Some(Ref(s.changedBy))
    case DeletedAt => Some(Stamp(s.deletedAt))
    case _ => None
  }

  function OptionValue(o: SlotOption, f: Field): Option<Value> {
    match f
    case SlotID => Some(Ref(Some(o.slotId)))
    case Title => Some(Text(o.title))
    case Notes => Some(Text(o.notes))
    case ExternalURL => Some(Text(o.url))
    case EstimatedCost => Some(MaybeNumber(o.cost))
    case PlaceName => Some(Text(o.placeName))
    case PlaceAddress => Some(Text(o.placeAddress))
    case PlaceLat => Some(Coordinate(o.lat))
    case PlaceLng => Some(Coordinate(o.lng))
    case PlaceProviderID => Some(Text(o.providerId))
    case DeletedAt => Some(Stamp(o.deletedAt))
    case _ => None
  }

  function VoteValue(v: Vote, f: Field): Option<Value> {
    match f
    case SlotID => Some(Ref(Some(v.slotId)))
    case UserID => Some(Ref(Some(v.userId)))
    case OptionID => Some(Ref(v.optionId))
    case _ => None
  }

  /** A ledger entry's fields, with the split set in the order it is held in. */
  function BudgetField(e: Budget, f: Field): Option<Value> {
    match f
    case Label => Some(Text(e.caption))
    case Category => Some(Text(e.category))
    case AmountMinor => Some(Number(e.amount))
    case SlotOptionID => Some(Ref(e.slotOptionId))
    case PaidBy => Some(Ref(e.paidBy))
    case IncurredOn => Some(Stamp(e.incurredOn))
    case Splits => Some(SplitSet(e.splits))
    case DeletedAt => Some(Stamp(e.deletedAt))
    case _ => None
  }

  /** The complete split set travels as one value, in user id order. */
  function BudgetValue(e: Budget, f: Field): Option<Value> {
    BudgetField(e.(splits := SortedSplits(e.splits)), f)
  }

  /** buildPayload; it has no encoder for a field the entity does not have. */
  function BuildPayload(value: Field -> Option<Value>, mask: FieldMask): Option<Payload> {
    if forall f :: f in mask ==> value(f).Some? then Some(map f | f in mask :: value(f).value) else None
  }

  // ----- splits in user id order -----

  function InsertSplit(s: Split, sorted: seq<Split>): seq<Split> {
    if sorted == [] || s.user <= sorted[0].user then [s] + sorted
    else [sorted[0]] + InsertSplit(s, sorted[1..])
  }

  function SortedSplits(splits: seq<Split>): seq<Split> {
    if splits == [] then [] else InsertSplit(splits[0], SortedSplits(splits[1..]))
  }

  predicate InUserOrder(splits: seq<Split>) {
    forall i, j :: 0 <= i < j < |splits| ==> splits[i].user <= splits[j].user
  }

  lemma {:induction false} InsertKeepsAll(s: Split, sorted: seq<Split>)
    ensures multiset(InsertSplit(s, sorted)) == multiset([s]) + multiset(sorted)
  {
    if sorted != [] && s.user > sorted[0].user {
      InsertKeepsAll(s, sorted[1..]);
      assert sorted == [sorted[0]] + sorted[1..];
    }
  }

  lemma {:induction false} InsertKeepsOrder(s: Split, sorted: seq<Split>)
    requires InUserOrder(sorted)
    ensures InUserOrder(InsertSplit(s, sorted))
  {
    if sorted != [] && s.user > sorted[0].user {
      var rest := InsertSplit(s, sorted[1..]);
      InsertKeepsOrder(s, sorted[1..]);
      InsertKeepsAll(s, sorted[1..]);
      forall i | 0 <= i < |rest| ensures sorted[0].user <= rest[i].user {
        InsertedOrOld(s, sorted[1..], rest[i]);
      }
      ConsKeepsOrder(sorted[0], rest);
    }
  }

  lemma InsertedOrOld(s: Split, sorted: seq<Split>, x: Split)
    requires x in multiset(InsertSplit(s, sorted))
    ensures x == s || x in sorted
  {
    InsertKeepsAll(s, sorted);
  }

  lemma ConsKeepsOrder(first: Split, rest: seq<Split>)
    requires InUserOrder(rest) && forall i :: 0 <= i < |rest| ==> first.user <= rest[i].user
    ensures InUserOrder([first] + rest)
  {
  }

  lemma {:induction false} SortedIsPermutation(splits: seq<Split>)
    ensures InUserOrder(SortedSplits(splits))
    ensures multiset(SortedSplits(splits)) == multiset(splits)
  {
    if splits != [] {
      SortedIsPermutation(splits[1..]);
      InsertKeepsOrder(splits[0], SortedSplits(splits[1..]));
      InsertKeepsAll(splits[0], SortedSplits(splits[1..]));
      assert splits == [splits[0]] + splits[1..];
    }
  }

  lemma {:induction false} SortingSorted(splits: seq<Split>)
    requires InUserOrder(splits)
    ensures SortedSplits(splits) == splits
  {
    if splits != [] {
      SortingSorted(splits[1..]);
    }
  }
}
