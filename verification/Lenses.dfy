/** Folding an entity's own masked payload: what the mask names comes from the payload, what it does not name stays. The
    one exception is an option's latitude, which comes out as the longitude when the payload has both. */
module Lenses {
  import opened Outcomes
  import opened ByteOrder
  import opened Domain
  import opened Folding

  const DAY_FIELDS: set<Field> := {Label, Position, Date, DeletedAt}
  const SLOT_FIELDS: set<Field> := {DayID, KindOf, Title, Notes, Position, Status, StartTime, EndTime,
                                    SelectedOptionID, StatusChangedBy, StatusChangedAt, DeletedAt}
  const OPTION_FIELDS: set<Field> := {SlotID, Title, Notes, ExternalURL, PlaceName, PlaceAddress, PlaceProviderID,
                                      EstimatedCost, PlaceLat, PlaceLng, DeletedAt}
  const VOTE_FIELDS: set<Field> := {SlotID, UserID, OptionID}
  const BUDGET_FIELDS: set<Field> := {Label, Category, AmountMinor, SlotOptionID, PaidBy, IncurredOn, Splits, DeletedAt}

  function DayPayload(d: Day, mask: FieldMask): Option<Payload> {
    BuildPayload(f => DayValue(d, f), mask)
  }

  function SlotPayload(s: Slot, mask: FieldMask): Option<Payload> {
    BuildPayload(f => SlotValue(s, f), mask)
  }

  function OptionPayload(o: SlotOption, mask: FieldMask): Option<Payload> {
    BuildPayload(f => OptionValue(o, f), mask)
  }

  function VotePayload(v: Vote, mask: FieldMask): Option<Payload> {
    BuildPayload(f => VoteValue(v, f), mask)
  }

  function BudgetPayload(e: Budget, mask: FieldMask): Option<Payload> {
    BuildPayload(f => BudgetValue(e, f), mask)
  }

  /** The fields of an entity the masks never name. */
  function DayRest(d: Day): nat {
    d.version
  }

  function SlotRest(s: Slot): (Option<ID>, nat) {
    (s.createdBy, s.version)
  }

  function OptionRest(o: SlotOption): (Option<ID>, nat) {
    (o.proposedBy, o.version)
  }

  function VoteRest(v: Vote): nat {
    v.version
  }

  function BudgetRest(e: Budget): (Option<ID>, nat) {
    (e.createdBy, e.version)
  }

  lemma DayLens()
    ensures IsLens(AssignDay, DayValue, DayRest, DAY_FIELDS)
  {
    forall e: Day, t: Day, f: Field | f in DAY_FIELDS ensures Puts(AssignDay, DayValue, DayRest, DAY_FIELDS, e, t, f) {
    }
  }

  lemma SlotAssigned(e: Slot, t: Slot, f: Field)
    requires f in SLOT_FIELDS
    ensures SlotValue(t, f).Some? && AssignSlot(e, f, SlotValue(t, f).value).Some?
    ensures var e' := AssignSlot(e, f, SlotValue(t, f).value).value;
      && SlotRest(e') == SlotRest(e) && SlotValue(e', f) == SlotValue(t, f)
      && forall g :: g in SLOT_FIELDS && g != f ==> SlotValue(e', g) == SlotValue(e, g)
  {
  }

  lemma SlotLens()
    ensures IsLens(AssignSlot, SlotValue, SlotRest, SLOT_FIELDS)
  {
    forall e: Slot, t: Slot, f: Field | f in SLOT_FIELDS
      ensures Puts(AssignSlot, SlotValue, SlotRest, SLOT_FIELDS, e, t, f)
    {
      SlotAssigned(e, t, f);
    }
  }

  lemma OptionAssigned(e: SlotOption, t: SlotOption, f: Field)
    requires f in OPTION_FIELDS
    ensures OptionValue(t, f).Some? && AssignOption(e, f, OptionValue(t, f).value).Some?
    ensures var e' := AssignOption(e, f, OptionValue(t, f).value).value;
      && OptionRest(e') == OptionRest(e) && OptionValue(e', f) == OptionValue(t, f)
      && forall g :: g in OPTION_FIELDS && g != f ==> OptionValue(e', g) == OptionValue(e, g)
  {
  }

  lemma OptionLens()
    ensures IsLens(AssignOption, OptionValue, OptionRest, OPTION_FIELDS)
  {
    forall e: SlotOption, t: SlotOption, f: Field | f in OPTION_FIELDS
      ensures Puts(AssignOption, OptionValue, OptionRest, OPTION_FIELDS, e, t, f)
    {
      OptionAssigned(e, t, f);
    }
  }

  lemma VoteLens()
    ensures IsLens(AssignVote, VoteValue, VoteRest, VOTE_FIELDS)
  {
    forall e: Vote, t: Vote, f: Field | f in VOTE_FIELDS
      ensures Puts(AssignVote, VoteValue, VoteRest, VOTE_FIELDS, e, t, f)
    {
    }
  }

  lemma BudgetAssigned(e: Budget, t: Budget, f: Field)
    requires f in BUDGET_FIELDS
    ensures BudgetField(t, f).Some? && AssignBudget(e, f, BudgetField(t, f).value).Some?
    ensures var e' := AssignBudget(e, f, BudgetField(t, f).value).value;
      && BudgetRest(e') == BudgetRest(e) && BudgetField(e', f) == BudgetField(t, f)
      && forall g :: g in BUDGET_FIELDS && g != f ==> BudgetField(e', g) == BudgetField(e, g)
  {
  }

  lemma BudgetLens()
    ensures IsLens(AssignBudget, BudgetField, BudgetRest, BUDGET_FIELDS)
  {
    forall e: Budget, t: Budget, f: Field | f in BUDGET_FIELDS
      ensures Puts(AssignBudget, BudgetField, BudgetRest, BUDGET_FIELDS, e, t, f)
    {
      BudgetAssigned(e, t, f);
    }
  }

  // ----- folding a row's payload over any entity -----

  /** Assigning a whole payload that a row shows makes its fields the row's and leaves the others. */
  lemma RowFolds<E(!new), R(!new)>(assign: (E, Field, Value) -> Option<E>, value: (E, Field) -> Option<Value>, rest: E -> R,
                                   order: seq<Field>, before: E, row: E, payload: Payload)
    requires IsLens(assign, value, rest, FieldsOf(order)) && payload.Keys <= FieldsOf(order)
    requires forall f :: f in payload ==> value(row, f) == Some(payload[f])
    ensures var (m, ok) := AssignAll(assign, before, payload, order);
      ok && Merged(value, rest, FieldsOf(order), before, row, payload.Keys, m)
  {
    AssignAllMerges(assign, value, rest, FieldsOf(order), before, row, payload, order);
    assert (set f | f in order && f in payload) == payload.Keys;
  }

  function FieldsOf(order: seq<Field>): set<Field> {
    set f | f in order
  }

  lemma DayFolds(before: Day, row: Day, payload: Payload)
    requires payload.Keys <= DAY_FIELDS && forall f :: f in payload ==> DayValue(row, f) == Some(payload[f])
    ensures var (d, ok) := AssignAll(AssignDay, before, payload, DAY_ORDER);
      ok && DayRest(d) == DayRest(before)
      && forall f :: f in DAY_FIELDS ==> DayValue(d, f) == if f in payload then Some(payload[f]) else DayValue(before, f)
  {
    DayLens();
    assert FieldsOf(DAY_ORDER) == DAY_FIELDS;
    RowFolds(AssignDay, DayValue, DayRest, DAY_ORDER, before, row, payload);
    var d := AssignAll(AssignDay, before, payload, DAY_ORDER).0;
    forall f | f in DAY_FIELDS ensures DayValue(d, f) == if f in payload then Some(payload[f]) else DayValue(before, f) {
      assert f in payload <==> f in payload.Keys;
    }
  }

  lemma SlotFolds(before: Slot, row: Slot, payload: Payload)
    requires payload.Keys <= SLOT_FIELDS && forall f :: f in payload ==> SlotValue(row, f) == Some(payload[f])
    ensures var (s, ok) := AssignAll(AssignSlot, before, payload, SLOT_ORDER);
      ok && SlotRest(s) == SlotRest(before)
      && forall f :: f in SLOT_FIELDS ==> SlotValue(s, f) == if f in payload then Some(payload[f]) else SlotValue(before, f)
  {
    SlotLens();
    assert FieldsOf(SLOT_ORDER) == SLOT_FIELDS;
    RowFolds(AssignSlot, SlotValue, SlotRest, SLOT_ORDER, before, row, payload);
    var s := AssignAll(AssignSlot, before, payload, SLOT_ORDER).0;
    forall f | f in SLOT_FIELDS ensures SlotValue(s, f) == if f in payload then Some(payload[f]) else SlotValue(before, f) {
      assert f in payload <==> f in payload.Keys;
    }
  }

  lemma OptionFolds(before: SlotOption, row: SlotOption, payload: Payload)
    requires payload.Keys <= OPTION_FIELDS && forall f :: f in payload ==> OptionValue(row, f) == Some(payload[f])
    ensures var (o, ok) := AssignAll(AssignOption, before, payload, OPTION_ORDER);
      ok && OptionRest(o) == OptionRest(before)
      && forall f :: f in OPTION_FIELDS ==> OptionValue(o, f) == if f in payload then Some(payload[f]) else OptionValue(before, f)
  {
    OptionLens();
    assert FieldsOf(OPTION_ORDER) == OPTION_FIELDS;
    RowFolds(AssignOption, OptionValue, OptionRest, OPTION_ORDER, before, row, payload);
    var o := AssignAll(AssignOption, before, payload, OPTION_ORDER).0;
    forall f | f in OPTION_FIELDS ensures OptionValue(o, f) == if f in payload then Some(payload[f]) else OptionValue(before, f) {
      assert f in payload <==> f in payload.Keys;
    }
  }

  lemma VoteFolds(before: Vote, row: Vote, payload: Payload)
    requires payload.Keys <= VOTE_FIELDS && forall f :: f in payload ==> VoteValue(row, f) == Some(payload[f])
    ensures var (v, ok) := AssignAll(AssignVote, before, payload, VOTE_ORDER);
      ok && VoteRest(v) == VoteRest(before)
      && forall f :: f in VOTE_FIELDS ==> VoteValue(v, f) == if f in payload then Some(payload[f]) else VoteValue(before, f)
  {
    VoteLens();
    assert FieldsOf(VOTE_ORDER) == VOTE_FIELDS;
    RowFolds(AssignVote, VoteValue, VoteRest, VOTE_ORDER, before, row, payload);
    var v := AssignAll(AssignVote, before, payload, VOTE_ORDER).0;
    forall f | f in VOTE_FIELDS ensures VoteValue(v, f) == if f in payload then Some(payload[f]) else VoteValue(before, f) {
      assert f in payload <==> f in payload.Keys;
    }
  }

  lemma BudgetFolds(before: Budget, row: Budget, payload: Payload)
    requires payload.Keys <= BUDGET_FIELDS && forall f :: f in payload ==> BudgetField(row, f) == Some(payload[f])
    ensures var (e, ok) := AssignAll(AssignBudget, before, payload, BUDGET_ORDER);
      ok && BudgetRest(e) == BudgetRest(before)
      && forall f :: f in BUDGET_FIELDS ==> BudgetField(e, f) == if f in payload then Some(payload[f]) else BudgetField(before, f)
  {
    BudgetLens();
    assert FieldsOf(BUDGET_ORDER) == BUDGET_FIELDS;
    RowFolds(AssignBudget, BudgetField, BudgetRest, BUDGET_ORDER, before, row, payload);
    var e := AssignAll(AssignBudget, before, payload, BUDGET_ORDER).0;
    forall f | f in BUDGET_FIELDS ensures BudgetField(e, f) == if f in payload then Some(payload[f]) else BudgetField(before, f) {
      assert f in payload <==> f in payload.Keys;
    }
  }

  lemma BudgetPayloadShows(row: Budget, mask: FieldMask)
    requires mask <= BUDGET_FIELDS && InUserOrder(row.splits)
    ensures BudgetPayload(row, mask).Some? && BudgetPayload(row, mask).value.Keys == mask
    ensures forall f :: f in mask ==> BudgetField(row, f) == Some(BudgetPayload(row, mask).value[f])
  {
    SortingSorted(row.splits);
    assert row.(splits := SortedSplits(row.splits)) == row;
    forall f | f in mask ensures BudgetValue(row, f).Some? && BudgetValue(row, f) == BudgetField(row, f) {
    }
  }

  // ----- an entity is its fields -----

  lemma DayDetermined(x: Day, y: Day)
    requires forall f :: f in DAY_FIELDS ==> DayValue(x, f) == DayValue(y, f)
    ensures x.(version := y.version) == y
  {
  }

  lemma SlotDetermined(x: Slot, y: Slot)
    requires forall f :: f in SLOT_FIELDS ==> SlotValue(x, f) == SlotValue(y, f)
    requires x.createdBy == y.createdBy
    ensures x.(version := y.version) == y
  {
  }

  lemma OptionDetermined(x: SlotOption, y: SlotOption)
    requires forall f :: f in OPTION_FIELDS ==> OptionValue(x, f) == OptionValue(y, f)
    requires x.proposedBy == y.proposedBy
    ensures x.(version := y.version) == y
  {
    assert OptionValue(x, SlotID) == OptionValue(y, SlotID);
    assert OptionValue(x, Title) == OptionValue(y, Title);
    assert OptionValue(x, Notes) == OptionValue(y, Notes);
    assert OptionValue(x, ExternalURL) == OptionValue(y, ExternalURL);
    assert OptionValue(x, PlaceName) == OptionValue(y, PlaceName);
    assert OptionValue(x, PlaceAddress) == OptionValue(y, PlaceAddress);
    assert OptionValue(x, PlaceProviderID) == OptionValue(y, PlaceProviderID);
    assert OptionValue(x, EstimatedCost) == OptionValue(y, EstimatedCost);
    assert OptionValue(x, PlaceLat) == OptionValue(y, PlaceLat);
    assert OptionValue(x, PlaceLng) == OptionValue(y, PlaceLng);
    assert OptionValue(x, DeletedAt) == OptionValue(y, DeletedAt);
  }

  lemma VoteDetermined(x: Vote, y: Vote)
    requires forall f :: f in VOTE_FIELDS ==> VoteValue(x, f) == VoteValue(y, f)
    ensures x.(version := y.version) == y
  {
  }

  lemma BudgetDetermined(x: Budget, y: Budget)
    requires forall f :: f in BUDGET_FIELDS ==> BudgetField(x, f) == BudgetField(y, f)
    requires x.createdBy == y.createdBy
    ensures x.(version := y.version) == y
  {
  }
}
