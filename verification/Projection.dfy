/** The client replica as the object it is: its maps and counter are updated in place (internal/domain/op.go Replica.Apply,
    Fold). */
module Projections {
  import opened Outcomes
  import opened Domain
  import F = Folding

  /** The run of field assignments an apply function makes, stopping at the first that does not decode. */
  method AssignFields<E>(assign: (E, Field, Value) -> Option<E>, entity: E, payload: Payload, order: seq<Field>)
      returns (e: E, ok: bool)
    ensures (e, ok) == F.AssignAll(assign, entity, payload, order)
  {
    e, ok := entity, true;
    for i := 0 to |order|
      invariant F.AssignAll(assign, e, payload, order[i..]) == F.AssignAll(assign, entity, payload, order)
    {
      assert order[i..][0] == order[i] && order[i..][1..] == order[i + 1..];
      if order[i] in payload {
        var decoded := assign(e, order[i], payload[order[i]]);
        if decoded.None? {
          return e, false;
        }
        e := decoded.value;
      }
    }
  }

  // ----- one pointer variable for two fields -----

  class Cell<T> {
    var value: T

    constructor (v: T)
      ensures value == v
    {
      value := v;
    }
  }

  /** Decoding into a pointer variable: a null resets it; a value goes through it into the cell it points to, and into a new
      cell when it points to none. */
  method Unmarshal<T>(variable: Cell?<T>, given: Option<T>) returns (pointer: Cell?<T>)
    modifies variable
    ensures given.None? ==> pointer == null && (variable != null ==> variable.value == old(variable.value))
    ensures given.Some? ==> pointer != null && pointer.value == given.value
    ensures given.Some? ==> if variable != null then pointer == variable else fresh(pointer)
  {
    if given.None? {
      return null;
    }
    if variable == null {
      pointer := new Cell(given.value);
      return;
    }
    variable.value := given.value;
    return variable;
  }

  function Pointee<T>(pointer: Cell?<T>): Option<T>
    reads pointer
  {
    if pointer == null then None else Some(pointer.value)
  }

  /** What assigning the two coordinates comes to. */
  lemma CoordinatesAssigned(o: SlotOption, p: Payload)
    ensures F.AssignAll(F.AssignOption, o, p, [PlaceLat, PlaceLng]) ==
      if PlaceLat in p && !p[PlaceLat].Coordinate? then (o, false)
      else
        var placed := if PlaceLat in p then o.(lat := p[PlaceLat].degrees) else o;
        if PlaceLng !in p then (placed, true)
        else if p[PlaceLng].Coordinate? then (placed.(lng := p[PlaceLng].degrees), true)
        else (placed, false)
  {
    var order := [PlaceLat, PlaceLng];
    assert order[1..] == [PlaceLng] && [PlaceLng][1..] == [];
    var placed := if PlaceLat in p && p[PlaceLat].Coordinate? then o.(lat := p[PlaceLat].degrees) else o;
    assert F.AssignAll(F.AssignOption, placed, p, [PlaceLng]) ==
      if PlaceLng !in p then (placed, true)
      else if p[PlaceLng].Coordinate? then (placed.(lng := p[PlaceLng].degrees), true)
      else (placed, false);
  }

  /** The two coordinates of an option are decoded through one variable, and its latitude keeps the pointer: what the longitude
      writes into the cell, the latitude shows. */
  method DecodeCoordinates(option: SlotOption, payload: Payload) returns (o: SlotOption, ok: bool)
    ensures (o, ok) == F.AssignAll(F.AssignOption, option, F.Decoded(OptionEntity, payload), [PlaceLat, PlaceLng])
  {
    CoordinatesAssigned(option, F.Decoded(OptionEntity, payload));
    var coord: Cell?<real> := null;
    o := option;
    if PlaceLat in payload {
      if !payload[PlaceLat].Coordinate? {
        return o, false;
      }
      coord := Unmarshal(coord, payload[PlaceLat].degrees);
    }
    var lat := coord;
    ok := PlaceLng in payload ==> payload[PlaceLng].Coordinate?;
    if PlaceLng in payload && ok {
      coord := Unmarshal(coord, payload[PlaceLng].degrees);
      o := o.(lng := Pointee(coord));
    }
    if PlaceLat in payload {
      o := o.(lat := Pointee(lat));
    }
  }

  /** Assigning two runs of fields one after the other. */
  lemma {:induction false} AssignInTurn<E>(assign: (E, Field, Value) -> Option<E>, e: E, p: Payload, x: seq<Field>, y: seq<Field>)
    ensures F.AssignAll(assign, e, p, x + y) ==
      var (m, ok) := F.AssignAll(assign, e, p, x); if ok then F.AssignAll(assign, m, p, y) else (m, false)
  {
    if x == [] {
      assert x + y == y;
    } else {
      assert (x + y)[1..] == x[1..] + y;
      if x[0] !in p {
        AssignInTurn(assign, e, p, x[1..], y);
      } else if assign(e, x[0], p[x[0]]).Some? {
        AssignInTurn(assign, assign(e, x[0], p[x[0]]).value, p, x[1..], y);
      }
    }
  }

  lemma {:induction false} AssignSame<E>(assign: (E, Field, Value) -> Option<E>, e: E, p: Payload, q: Payload, order: seq<Field>)
    requires p.Keys == q.Keys && forall f :: f in order && f in p ==> p[f] == q[f]
    ensures F.AssignAll(assign, e, p, order) == F.AssignAll(assign, e, q, order)
  {
    if order != [] {
      var f, rest := order[0], order[1..];
      assert f in p <==> f in q.Keys;
      if f !in p {
        AssignSame(assign, e, p, q, rest);
      } else if assign(e, f, p[f]).Some? {
        AssignSame(assign, assign(e, f, p[f]).value, p, q, rest);
      }
    }
  }

  const BEFORE_PLACES: seq<Field> := [SlotID, Title, Notes, ExternalURL, PlaceName, PlaceAddress, PlaceProviderID, EstimatedCost]

  /** Three runs in turn, of which only the middle one sees what decoding makes of the payload. */
  lemma ThreeRuns<E>(assign: (E, Field, Value) -> Option<E>, o: E, p: Payload, q: Payload,
                     before: seq<Field>, shared: seq<Field>, after: seq<Field>)
    requires p.Keys == q.Keys && forall f :: f in before + after && f in p ==> p[f] == q[f]
    ensures F.AssignAll(assign, o, q, before + (shared + after)) ==
      var (x, ok) := F.AssignAll(assign, o, p, before);
      if !ok then (x, false)
      else
        var (y, placed) := F.AssignAll(assign, x, q, shared);
        if placed then F.AssignAll(assign, y, p, after) else (y, false)
  {
    AssignInTurn(assign, o, q, before, shared + after);
    AssignSame(assign, o, p, q, before);
    var x := F.AssignAll(assign, o, p, before).0;
    AssignInTurn(assign, x, q, shared, after);
    AssignSame(assign, F.AssignAll(assign, x, q, shared).0, p, q, after);
  }

  lemma OptionOrder()
    ensures F.OPTION_ORDER == BEFORE_PLACES + ([PlaceLat, PlaceLng] + [DeletedAt])
    ensures PlaceLat !in BEFORE_PLACES + [DeletedAt]
  {
  }

  class Projection {
    var seqno: nat
    var days: map<ID, Day>
    var slots: map<ID, Slot>
    var options: map<ID, SlotOption>
    var votes: map<ID, Vote>
    var budgets: map<ID, Budget>

    function AsReplica(): F.Replica
      reads this
    {
      F.Replica(seqno, days, slots, options, votes, budgets)
    }

    constructor ()
      ensures AsReplica() == F.EMPTY
    {
      seqno, days, slots, options, votes, budgets := 0, map[], map[], map[], map[], map[];
    }

    method ApplyDay(op: Op) returns (error: Option<F.FoldError>)
      modifies this`days
      ensures F.Applied(AsReplica(), error) == F.ApplyDay(old(AsReplica()), op)
    {
      if op.entity !in days && !op.kind.DayCreate? {
        return Some(F.UnknownEntity);
      }
      var before := if op.entity in days then days[op.entity] else F.BLANK_DAY;
      var d, ok := AssignFields(F.AssignDay, before, F.Decoded(DayEntity, op.payload), F.DAY_ORDER);
      days := days[op.entity := if ok then d.(version := op.version) else d];
      return if ok then None else Some(F.BadField);
    }

    method ApplySlot(op: Op) returns (error: Option<F.FoldError>)
      modifies this`slots
      ensures F.Applied(AsReplica(), error) == F.ApplySlot(old(AsReplica()), op)
    {
      if op.entity !in slots && !op.kind.SlotCreate? {
        return Some(F.UnknownEntity);
      }
      var before := if op.entity in slots then slots[op.entity] else F.BlankSlot(op.actor);
      var s, ok := AssignFields(F.AssignSlot, before, F.Decoded(SlotEntity, op.payload), F.SLOT_ORDER);
      slots := slots[op.entity := if ok then s.(version := op.version) else s];
      return if ok then None else Some(F.BadField);
    }

    method ApplyOption(op: Op) returns (error: Option<F.FoldError>)
      modifies this`options
      ensures F.Applied(AsReplica(), error) == F.ApplyOption(old(AsReplica()), op)
    {
      if op.entity !in options && !op.kind.OptionCreate? {
        return Some(F.UnknownEntity);
      }
      var before := if op.entity in options then options[op.entity] else F.BlankOption(op.actor);
      OptionOrder();
      ThreeRuns(F.AssignOption, before, op.payload, F.Decoded(OptionEntity, op.payload),
                BEFORE_PLACES, [PlaceLat, PlaceLng], [DeletedAt]);
      var o, ok := AssignFields(F.AssignOption, before, op.payload, BEFORE_PLACES);
      if ok {
        o, ok := DecodeCoordinates(o, op.payload);
      }
      if ok {
        o, ok := AssignFields(F.AssignOption, o, op.payload, [DeletedAt]);
      }
      options := options[op.entity := if ok then o.(version := op.version) else o];
      return if ok then None else Some(F.BadField);
    }

    method ApplyVote(op: Op) returns (error: Option<F.FoldError>)
      modifies this`votes
      ensures F.Applied(AsReplica(), error) == F.ApplyVote(old(AsReplica()), op)
    {
      var before := if op.entity in votes then votes[op.entity] else F.BLANK_VOTE;
      var v, ok := AssignFields(F.AssignVote, before, op.payload, F.VOTE_ORDER);
      votes := votes[op.entity := if ok then v.(version := op.version) else v];
      return if ok then None else Some(F.BadField);
    }

    method ApplyBudget(op: Op) returns (error: Option<F.FoldError>)
      modifies this`budgets
      ensures F.Applied(AsReplica(), error) == F.ApplyBudget(old(AsReplica()), op)
    {
      if op.entity !in budgets && !op.kind.BudgetSet? {
        return Some(F.UnknownEntity);
      }
      var before := if op.entity in budgets then budgets[op.entity] else F.BlankBudget(op.actor);
      var e, ok := AssignFields(F.AssignBudget, before, F.Decoded(BudgetEntity, op.payload), F.BUDGET_ORDER);
      budgets := budgets[op.entity := if ok then e.(version := op.version) else e];
      return if ok then None else Some(F.BadField);
    }

    /** Redelivery changes nothing, a gap is refused, and the next operation is folded in. */
    method Apply(op: Op) returns (error: Option<F.FoldError>)
      modifies this
      ensures F.Applied(AsReplica(), error) == F.Apply(old(AsReplica()), op)
    {
      if op.seqno <= seqno {
        return None;
      }
      if op.seqno > seqno + 1 {
        return Some(F.Gap);
      }
      match EntityOf(op.kind) {
        case DayEntity => error := ApplyDay(op);
        case SlotEntity => error := ApplySlot(op);
        case OptionEntity => error := ApplyOption(op);
        case VoteEntity => error := ApplyVote(op);
        case BudgetEntity => error := ApplyBudget(op);
      }
      if error.None? {
        seqno := op.seqno;
      }
    }
  }

  lemma {:induction false} ErrorStays(ops: seq<Op>, n: nat, e: F.FoldError)
    requires n <= |ops| && F.Fold(ops[..n]) == Err(e)
    ensures F.Fold(ops) == Err(e)
  {
    if n == |ops| {
      assert ops[..n] == ops;
    } else {
      assert ops[..|ops| - 1][..n] == ops[..n];
      ErrorStays(ops[..|ops| - 1], n, e);
    }
  }

  method FoldLog(ops: seq<Op>) returns (r: Result<F.Replica, F.FoldError>)
    ensures r == F.Fold(ops)
  {
    var p := new Projection();
    for i := 0 to |ops|
      invariant F.Fold(ops[..i]) == Ok(p.AsReplica())
    {
      assert ops[..i + 1][..i] == ops[..i];
      var error := p.Apply(ops[i]);
      if error.Some? {
        ErrorStays(ops, i + 1, error.value);
        return Err(error.value);
      }
    }
    assert ops[..|ops|] == ops;
    return Ok(p.AsReplica());
  }
}
