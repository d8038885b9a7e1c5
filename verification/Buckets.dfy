/** The order of slots within a day or the backlog, and of days within the trip: what creating and moving keep. */
module Buckets {
  import opened Outcomes
  import opened ByteOrder
  import opened FracKeys
  import opened FracIntegers
  import opened Domain
  import opened Folding
  import opened Tables
  import opened Placement
  import opened Writes
  import opened Convergence
  import opened Transactions
  import opened Merging
  import opened Selections
  import opened Exactness
  import opened WriteMachine

  /** What a stored position can be: a key, or the reserved value the lower edge yields. */
  predicate Placeable(position: Str) {
    IsKey(position) || position == SMALLEST
  }

  ghost predicate Spaced(places: set<Place>) {
    && (forall p :: p in places ==> Placeable(p.position))
    && (forall p, q :: p in places && q in places && p != q ==> p.position != q.position)
  }

  // ----- a new key among the places of one list -----

  /** The bounds a new row is placed between: its anchor, if it has one, and the first place after that. */
  ghost function BoundsAt(places: set<Place>, anchor: Option<Place>): Bounds {
    match anchor
    case None => Bounds([], FirstPosition(places))
    case Some(a) => Bounds(a.position, FirstPosition(Following(places, a)))
  }

  /** Whether a place stays before a row inserted after the anchor. */
  predicate StaysBefore(anchor: Option<Place>, q: Place) {
    anchor.Some? && !Earlier(anchor.value, q)
  }

  /** key splits the list at the anchor: what stood up to the anchor is below it, all else above. */
  ghost predicate SplitsAt(places: set<Place>, anchor: Option<Place>, key: Str) {
    forall q :: q in places ==> if StaysBefore(anchor, q) then Less(q.position, key) else Less(key, q.position)
  }

  lemma EarlierIsLessEq(p: Place, q: Place)
    requires !Earlier(p, q)
    ensures LessEq(q.position, p.position)
  {
    EarlierTotal(p, q);
  }

  lemma LessEqLess(a: Str, b: Str, c: Str)
    requires (LessEq(a, b) && Less(b, c)) || (Less(a, b) && LessEq(b, c))
    ensures Less(a, c)
  {
    if a != b && b != c {
      LessTransitive(a, b, c);
    }
  }

  lemma KeySplits(places: set<Place>, anchor: Option<Place>, key: Str)
    requires Spaced(places) && (anchor.Some? ==> Placeable(anchor.value.position))
    requires var b := BoundsAt(places, anchor); KeyBetween(b.prev, b.next) == Ok(key)
    ensures Placeable(key) && SplitsAt(places, anchor, key)
  {
    var b := BoundsAt(places, anchor);
    KeyBetweenIsDense(b.prev, b.next);
    forall q | q in places
      ensures if StaysBefore(anchor, q) then Less(q.position, key) else Less(key, q.position)
    {
      if StaysBefore(anchor, q) {
        EarlierIsLessEq(anchor.value, q);
        LessEqLess(q.position, b.prev, key);
      } else {
        var later := if anchor.Some? then Following(places, anchor.value) else places;
        assert q in later && IsFirst(First(later), later);
        assert b.next == First(later).position && b.next != [];
        LessEqLess(key, b.next, q.position);
      }
    }
  }

  /** There is a key exactly when neither bound is the reserved value and the bounds differ; and the key is one a later
      insertion can use except below LOWEST_INTEGER_KEY at the front of the list. */
  lemma KeyExactly(places: set<Place>, anchor: Option<Place>)
    requires Spaced(places) && (anchor.Some? ==> Placeable(anchor.value.position))
    ensures var b := BoundsAt(places, anchor);
      KeyBetween(b.prev, b.next).Ok? <==> b.prev != SMALLEST && b.next != SMALLEST && (b.prev == b.next ==> b.prev == [])
    ensures var b := BoundsAt(places, anchor); KeyBetween(b.prev, b.next).Ok? ==>
      (IsKey(KeyBetween(b.prev, b.next).value) <==> !(anchor.None? && b.next == LOWEST_INTEGER_KEY))
    ensures anchor.Some? && anchor.value in places ==> var b := BoundsAt(places, anchor); b.prev != b.next
  {
    var b := BoundsAt(places, anchor);
    KeyBetweenIsDense(b.prev, b.next);
    SentinelIsNoKey();
    var later := if anchor.Some? then Following(places, anchor.value) else places;
    if later != {} {
      assert First(later) in places;
      if anchor.Some? {
        assert Earlier(anchor.value, First(later));
        EarlierTotal(anchor.value, First(later));
        LessIrreflexive(b.prev);
      }
    }
  }

  lemma SentinelIsNoKey()
    ensures !IsKey(SMALLEST) && SMALLEST != []
  {
  }

  // ----- slots -----

  predicate IsLive(slots: map<ID, Slot>, id: ID) {
    id in slots && slots[id].deletedAt.None?
  }

  /** Live positions are well formed, and distinct within each bucket. */
  ghost predicate SlotsSpaced(slots: map<ID, Slot>) {
    forall dayId :: Spaced(Bucket(slots, dayId))
  }

  ghost predicate LivePlaceable(slots: map<ID, Slot>) {
    forall id :: IsLive(slots, id) ==> Placeable(slots[id].position)
  }

  lemma PlaceableFromBuckets(slots: map<ID, Slot>)
    requires SlotsSpaced(slots)
    ensures LivePlaceable(slots)
  {
    forall id | IsLive(slots, id) ensures Placeable(slots[id].position) {
      assert SlotPlace(slots, id) in Bucket(slots, slots[id].dayId);
      assert Spaced(Bucket(slots, slots[id].dayId));
    }
  }

  function AnchorOf(slots: map<ID, Slot>, after: Option<ID>): Option<Place>
    requires after.Some? ==> after.value in slots
  {
    if after.Some? then Some(SlotPlace(slots, after.value)) else None
  }

  /** The plan's position splits the target bucket at the anchor. */
  lemma PlannedPositionSplits(slots: map<ID, Slot>, dayId: Option<ID>, after: Option<ID>, key: Str)
    requires SlotsSpaced(slots) && NewPosition(SlotNeighbours(slots, dayId, after)) == Ok(key)
    ensures after.Some? ==> IsLive(slots, after.value)
    ensures Placeable(key) && SplitsAt(Bucket(slots, dayId), AnchorOf(slots, after), key)
  {
    PlaceableFromBuckets(slots);
    assert Spaced(Bucket(slots, dayId));
    KeySplits(Bucket(slots, dayId), AnchorOf(slots, after), key);
  }

  /** Storing a row that is tombstoned, stays where it was, or takes a position no other live row of its bucket has. */
  lemma SlotStoredKeeps(slots: map<ID, Slot>, id: ID, s: Slot)
    requires SlotsSpaced(slots)
    requires s.deletedAt.None? ==> Placeable(s.position)
    requires s.deletedAt.None? ==> forall q :: q in Bucket(slots, s.dayId) && q.id != id ==> q.position != s.position
    ensures SlotsSpaced(slots[id := s])
  {
    var after := slots[id := s];
    forall dayId ensures Spaced(Bucket(after, dayId)) {
      assert Spaced(Bucket(slots, dayId));
      forall p | p in Bucket(after, dayId)
        ensures p == Place(s.position, id) || (p in Bucket(slots, dayId) && p.id != id)
      {
        if p.id != id {
          assert SlotPlace(slots, p.id) == p;
        }
      }
    }
  }

  lemma UnmovedKeeps(slots: map<ID, Slot>, id: ID, s: Slot)
    requires SlotsSpaced(slots) && id in slots
    requires s.position == slots[id].position && s.dayId == slots[id].dayId
    requires s.deletedAt.None? ==> slots[id].deletedAt.None?
    ensures SlotsSpaced(slots[id := s])
  {
    if s.deletedAt.None? {
      PlaceableFromBuckets(slots);
      assert Spaced(Bucket(slots, s.dayId)) && SlotPlace(slots, id) in Bucket(slots, s.dayId);
    }
    SlotStoredKeeps(slots, id, s);
  }

  lemma SplitIsFree(places: set<Place>, anchor: Option<Place>, key: Str)
    requires SplitsAt(places, anchor, key)
    ensures forall q :: q in places ==> q.position != key
  {
    LessIrreflexive(key);
  }

  lemma PlacedKeeps(slots: map<ID, Slot>, id: ID, s: Slot, after: Option<ID>)
    requires SlotsSpaced(slots) && NewPosition(SlotNeighbours(slots, s.dayId, after)) == Ok(s.position)
    ensures SlotsSpaced(slots[id := s])
  {
    PlannedPositionSplits(slots, s.dayId, after, s.position);
    SplitIsFree(Bucket(slots, s.dayId), AnchorOf(slots, after), s.position);
    SlotStoredKeeps(slots, id, s);
  }

  // ----- days -----

  ghost predicate DaysSpaced(days: map<ID, Day>) {
    Spaced(LiveDays(days))
  }

  lemma DayStoredKeeps(days: map<ID, Day>, id: ID, d: Day)
    requires DaysSpaced(days)
    requires d.deletedAt.None? ==> Placeable(d.position)
    requires d.deletedAt.None? ==> forall q :: q in LiveDays(days) && q.id != id ==> q.position != d.position
    ensures DaysSpaced(days[id := d])
  {
  }

  lemma DayPlacedKeeps(days: map<ID, Day>, id: ID, d: Day, after: Option<ID>)
    requires DaysSpaced(days) && NewPosition(DayNeighbours(days, after)) == Ok(d.position)
    ensures DaysSpaced(days[id := d])
  {
    var anchor := if after.Some? then Some(Place(days[after.value].position, after.value)) else None;
    if after.Some? {
      assert Place(days[after.value].position, after.value) in LiveDays(days);
    }
    KeySplits(LiveDays(days), anchor, d.position);
    SplitIsFree(LiveDays(days), anchor, d.position);
    DayStoredKeeps(days, id, d);
  }

  lemma DayUnmovedKeeps(days: map<ID, Day>, id: ID, d: Day)
    requires DaysSpaced(days) && id in days && d.position == days[id].position
    requires d.deletedAt.None? ==> days[id].deletedAt.None?
    ensures DaysSpaced(days[id := d])
  {
  }

  // ----- every statement of every write -----

  ghost predicate Ordered(db: Db) {
    SlotsSpaced(db.rows.slots) && DaysSpaced(db.rows.days)
  }

  lemma PutKeepsOrdered(db: Db, id: ID, row: Row)
    requires Ordered(db)
    requires row.SlotRow? ==> SlotsSpaced(db.rows.slots[id := row.slot])
    requires row.DayRow? ==> DaysSpaced(db.rows.days[id := row.day])
    ensures Ordered(Affect(db, PutRow(id, row)))
  {
  }

  lemma WrittenPlanRow(call: Call, db: Db, plan: Planned, w: Written)
    requires TargetTable(call.intent) == DayEntity || TargetTable(call.intent) == SlotEntity
    requires Plan(call, db) == Ok(plan) && Execute(plan.stmt, call.fieldsValid, db) == Ok(w)
    ensures TableOf(w.row) == TargetTable(call.intent)
  {
  }

  lemma WrittenOtherRow(call: Call, db: Db, plan: Planned, w: Written)
    requires TargetTable(call.intent) != DayEntity && TargetTable(call.intent) != SlotEntity
    requires Plan(call, db) == Ok(plan) && Execute(plan.stmt, call.fieldsValid, db) == Ok(w)
    ensures TableOf(w.row) == TargetTable(call.intent)
  {
  }

  lemma WrittenTable(call: Call, db: Db, plan: Planned, w: Written)
    requires Plan(call, db) == Ok(plan) && Execute(plan.stmt, call.fieldsValid, db) == Ok(w)
    ensures TableOf(w.row) == TargetTable(call.intent)
  {
    if TargetTable(call.intent) == DayEntity || TargetTable(call.intent) == SlotEntity {
      WrittenPlanRow(call, db, plan, w);
    } else {
      WrittenOtherRow(call, db, plan, w);
    }
  }

  lemma SlotPlaced(call: Call, db: Db, plan: Planned, w: Written)
    requires call.intent.CreateSlot? || call.intent.MoveSlot?
    requires Plan(call, db) == Ok(plan) && Execute(plan.stmt, call.fieldsValid, db) == Ok(w)
    ensures w.id == call.intent.id && w.row.SlotRow? && w.row.slot.deletedAt.None? && w.row.slot.dayId == call.intent.dayId
    ensures NewPosition(SlotNeighbours(db.rows.slots, call.intent.dayId, call.intent.after)) == Ok(w.row.slot.position)
  {
  }

  lemma SlotUnmoved(call: Call, db: Db, plan: Planned, w: Written)
    requires TargetTable(call.intent) == SlotEntity && !call.intent.CreateSlot? && !call.intent.MoveSlot?
    requires Plan(call, db) == Ok(plan) && Execute(plan.stmt, call.fieldsValid, db) == Ok(w)
    ensures w.row.SlotRow? && w.id in db.rows.slots
    ensures var s, t := w.row.slot, db.rows.slots[w.id];
      s.position == t.position && s.dayId == t.dayId && (s.deletedAt.None? ==> t.deletedAt.None?)
  {
  }

  lemma WrittenSlotKeeps(call: Call, db: Db, plan: Planned, w: Written)
    requires Ordered(db) && TargetTable(call.intent) == SlotEntity && w.row.SlotRow?
    requires Plan(call, db) == Ok(plan) && Execute(plan.stmt, call.fieldsValid, db) == Ok(w)
    ensures SlotsSpaced(db.rows.slots[w.id := w.row.slot])
  {
    if call.intent.CreateSlot? || call.intent.MoveSlot? {
      SlotPlaced(call, db, plan, w);
      PlacedKeeps(db.rows.slots, w.id, w.row.slot, call.intent.after);
    } else {
      SlotUnmoved(call, db, plan, w);
      UnmovedKeeps(db.rows.slots, w.id, w.row.slot);
    }
  }

  lemma WrittenDayKeeps(call: Call, db: Db, plan: Planned, w: Written)
    requires Ordered(db) && TargetTable(call.intent) == DayEntity && w.row.DayRow?
    requires Plan(call, db) == Ok(plan) && Execute(plan.stmt, call.fieldsValid, db) == Ok(w)
    ensures DaysSpaced(db.rows.days[w.id := w.row.day])
  {
    if call.intent.CreateDay? || call.intent.MoveDay? {
      DayPlacedKeeps(db.rows.days, w.id, w.row.day, call.intent.after);
    } else {
      DayUnmovedKeeps(db.rows.days, w.id, w.row.day);
    }
  }

  lemma NextKeepsOrdered(call: Call, pc: Pc, db: Db)
    requires Ordered(db) && !pc.Finished? && !pc.Failed? && (pc.Writing? ==> Plan(call, db) == Ok(pc.plan))
    ensures var s := Next(call, pc, db);
      Ordered(AffectAll(db, s.effects)) && (s.pc.Writing? ==> Plan(call, AffectAll(db, s.effects)) == Ok(s.pc.plan))
  {
    match pc
    case Writing(plan) =>
      var r := Execute(plan.stmt, call.fieldsValid, db);
      if r.Ok? {
        OneEffect(db, PutRow(r.value.id, r.value.row));
        WrittenTable(call, db, plan, r.value);
        if r.value.row.SlotRow? {
          WrittenSlotKeeps(call, db, plan, r.value);
        } else if r.value.row.DayRow? {
          WrittenDayKeeps(call, db, plan, r.value);
        }
        PutKeepsOrdered(db, r.value.id, r.value.row);
      }
    case Unselecting(slotId, version) =>
      var r := Execute(UpdateSelected(slotId, None, version), true, db);
      if r.Ok? {
        OneEffect(db, PutRow(r.value.id, r.value.row));
        UnmovedKeeps(db.rows.slots, r.value.id, r.value.row.slot);
        PutKeepsOrdered(db, r.value.id, r.value.row);
      }
    case Allocating(_) => OneEffect(db, TakeSeq);
    case Appending(draft, seqno) =>
      if draft.payload.Some? {
        OneEffect(db, AddOp(OpOf(call, draft, seqno)));
      }
    case _ =>
  }

  lemma {:induction false} CompletionKeepsOrdered(call: Call, pc: Pc, db: Db)
    requires Ordered(db) && (pc.Writing? ==> Plan(call, db) == Ok(pc.plan))
    ensures Completion(call, pc, db).Committed? ==> Ordered(Completion(call, pc, db).db)
    decreases Left(pc)
  {
    if !pc.Finished? && !pc.Failed? {
      CompletionStep(call, pc, db);
      NextKeepsOrdered(call, pc, db);
      var s := Next(call, pc, db);
      CompletionKeepsOrdered(call, s.pc, AffectAll(db, s.effects));
    }
  }

  lemma {:induction false} ReplayOrdered(calls: seq<Call>)
    ensures Ordered(Replay(calls))
  {
    if calls != [] {
      ReplayOrdered(calls[..|calls| - 1]);
      CompletionKeepsOrdered(calls[|calls| - 1], Reading, Replay(calls[..|calls| - 1]));
    }
  }

  /** In every reachable state the live slots of each bucket have distinct positions, each a key or the reserved value,
      and so have the live days: ties are never what orders a list. */
  lemma EveryListIsOrdered(actions: seq<Action>)
    ensures Ordered(Run(actions).db)
  {
    RefinesSerial(actions);
    ReplayOrdered(Run(actions).history);
  }

  // ----- where a created or moved slot ends up -----

  lemma PlacingCommits(call: Call, db: Db)
    requires Gapless(db) && (call.intent.CreateSlot? || call.intent.MoveSlot?) && Atomic(call, db).Committed?
    ensures Plan(call, db).Ok? && Execute(Plan(call, db).value.stmt, call.fieldsValid, db).Ok?
    ensures var w := Execute(Plan(call, db).value.stmt, call.fieldsValid, db).value;
      w.row.SlotRow? && Atomic(call, db).db.rows.slots == db.rows.slots[w.id := w.row.slot]
  {
    AtomicUnfolds(call, db);
    var plan := Plan(call, db).value;
    var w := Execute(plan.stmt, call.fieldsValid, db).value;
    SlotPlaced(call, db, plan, w);
    PlacedThenRecorded(call, db, plan, w);
  }

  lemma PlacedThenRecorded(call: Call, db: Db, plan: Planned, w: Written)
    requires Gapless(db) && (call.intent.CreateSlot? || call.intent.MoveSlot?)
    requires Plan(call, db) == Ok(plan) && Execute(plan.stmt, call.fieldsValid, db) == Ok(w)
    requires w.row.SlotRow? && w.row.slot.deletedAt.None?
    ensures var end := Completion(call, Next(call, Writing(plan), db).pc, Affect(db, PutRow(w.id, w.row)));
      end.Committed? ==> end.db.rows.slots == db.rows.slots[w.id := w.row.slot]
  {
    if call.intent.CreateSlot? {
      CreatedThenRecorded(call, db, w);
      assert Next(call, Writing(plan), db).pc == Allocating(DraftOf(SlotCreate, w.id, AllowedFields(SlotCreate), w.row, true));
    } else {
      MovedThenRecorded(call, db, w);
      assert Next(call, Writing(plan), db).pc == Rereading(SlotMove, w.id, {DayID, Position}, true);
    }
  }

  lemma CreatedThenRecorded(call: Call, db: Db, w: Written)
    requires Gapless(db) && w.row.SlotRow?
    ensures var end := Completion(call, Allocating(DraftOf(SlotCreate, w.id, AllowedFields(SlotCreate), w.row, true)),
                                  Affect(db, PutRow(w.id, w.row)));
      end.Committed? ==> end.db.rows.slots == db.rows.slots[w.id := w.row.slot]
  {
    RecordedWrite(call, db, w, w.row, SlotCreate, AllowedFields(SlotCreate));
  }

  lemma MovedThenRecorded(call: Call, db: Db, w: Written)
    requires Gapless(db) && w.row.SlotRow? && w.row.slot.deletedAt.None?
    ensures var end := Completion(call, Rereading(SlotMove, w.id, {DayID, Position}, true), Affect(db, PutRow(w.id, w.row)));
      end.Committed? ==> end.db.rows.slots == db.rows.slots[w.id := w.row.slot]
  {
    RereadRecords(call, db, w, SlotMove, {DayID, Position});
  }

  /** A committed create or move puts the slot immediately after its anchor (first, when it has none): of the target
      bucket's other live slots those up to the anchor come before it and all later ones after it, by position alone.
      Every other slot keeps its bucket and its position, so their order among themselves is unchanged. */
  lemma PlacedAfterAnchor(call: Call, db: Db)
    requires Gapless(db) && Ordered(db)
    requires (call.intent.CreateSlot? || call.intent.MoveSlot?) && Atomic(call, db).Committed?
    ensures var id, dayId, after := call.intent.id, call.intent.dayId, call.intent.after;
      var slots, slots' := db.rows.slots, Atomic(call, db).db.rows.slots;
      && IsLive(slots', id) && slots'[id].dayId == dayId
      && (after.Some? ==> IsLive(slots, after.value))
      && slots' == slots[id := slots'[id]]
      && SplitsAt(Bucket(slots, dayId), AnchorOf(slots, after), slots'[id].position)
  {
    PlacingCommits(call, db);
    var plan := Plan(call, db).value;
    var w := Execute(plan.stmt, call.fieldsValid, db).value;
    SlotPlaced(call, db, plan, w);
    PlannedPositionSplits(db.rows.slots, call.intent.dayId, call.intent.after, w.row.slot.position);
  }

  /** With an anchor in the target bucket, nothing live stands between it and the slot placed after it. */
  lemma NothingInBetween(call: Call, db: Db, q: ID)
    requires Gapless(db) && Ordered(db)
    requires (call.intent.CreateSlot? || call.intent.MoveSlot?) && Atomic(call, db).Committed?
    requires call.intent.after.Some?
    requires var a, slots' := call.intent.after.value, Atomic(call, db).db.rows.slots;
      && a != call.intent.id && q != call.intent.id && q != a
      && IsLive(slots', a) && slots'[a].dayId == call.intent.dayId
      && IsLive(slots', q) && slots'[q].dayId == call.intent.dayId
    ensures var a, id, slots' := call.intent.after.value, call.intent.id, Atomic(call, db).db.rows.slots;
      && id in slots' && Earlier(SlotPlace(slots', a), SlotPlace(slots', id))
      && !(Earlier(SlotPlace(slots', a), SlotPlace(slots', q)) && Earlier(SlotPlace(slots', q), SlotPlace(slots', id)))
  {
    PlacedAfterAnchor(call, db);
    var a, id, slots, slots' := call.intent.after.value, call.intent.id, db.rows.slots, Atomic(call, db).db.rows.slots;
    var key := slots'[id].position;
    assert SlotPlace(slots, a) in Bucket(slots, call.intent.dayId) && SlotPlace(slots, q) in Bucket(slots, call.intent.dayId);
    EarlierTotal(SlotPlace(slots, a), SlotPlace(slots, a));
    assert Less(slots[a].position, key);
    if Earlier(SlotPlace(slots, a), SlotPlace(slots, q)) {
      LessAsymmetric(key, slots[q].position);
    }
  }

  /** Once the reserved value stands in a bucket nothing can be put in front of it, nor directly behind it. */
  lemma SentinelJams(slots: map<ID, Slot>, dayId: Option<ID>, id: ID)
    requires SlotsSpaced(slots) && IsLive(slots, id) && slots[id].dayId == dayId && slots[id].position == SMALLEST
    requires IsFirst(SlotPlace(slots, id), Bucket(slots, dayId))
    ensures NewPosition(SlotNeighbours(slots, dayId, None)).Err?
    ensures NewPosition(SlotNeighbours(slots, dayId, Some(id))).Err?
  {
    PlaceableFromBuckets(slots);
    assert Spaced(Bucket(slots, dayId));
    FirstIs(Bucket(slots, dayId), SlotPlace(slots, id));
    KeyExactly(Bucket(slots, dayId), None);
    KeyExactly(Bucket(slots, dayId), Some(SlotPlace(slots, id)));
  }

  /** The neighbours give a position exactly when the anchor is live, neither bound is the reserved value, and an anchor
      from another bucket does not tie with the slot after it; within one bucket that cannot happen. */
  lemma PositionExactly(slots: map<ID, Slot>, dayId: Option<ID>, after: Option<ID>)
    requires SlotsSpaced(slots)
    ensures NewPosition(SlotNeighbours(slots, dayId, after)).Ok? <==>
      && (after.Some? ==> IsLive(slots, after.value))
      && var b := BoundsAt(Bucket(slots, dayId), AnchorOf(slots, after));
         b.prev != SMALLEST && b.next != SMALLEST && (b.prev == b.next ==> b.prev == [])
    ensures after.Some? && IsLive(slots, after.value) && slots[after.value].dayId == dayId ==>
      var b := BoundsAt(Bucket(slots, dayId), AnchorOf(slots, after)); b.prev != b.next
    ensures NewPosition(SlotNeighbours(slots, dayId, after)).Ok? ==>
      (IsKey(NewPosition(SlotNeighbours(slots, dayId, after)).value) <==>
        !(after.None? && FirstPosition(Bucket(slots, dayId)) == LOWEST_INTEGER_KEY))
  {
    PlaceableFromBuckets(slots);
    assert Spaced(Bucket(slots, dayId));
    if after.Some? ==> IsLive(slots, after.value) {
      KeyExactly(Bucket(slots, dayId), AnchorOf(slots, after));
      if after.Some? && slots[after.value].dayId == dayId {
        assert SlotPlace(slots, after.value) in Bucket(slots, dayId);
      }
    }
  }

  /** Had two creates with one anchor both read before either wrote, they would share a position. */
  lemma ReadingBeforeTheLockTies(a: Call, b: Call, db: Db, plan: Planned, other: Planned, w: Written, v: Written)
    requires a.intent.CreateSlot? && b.intent.CreateSlot? && a.intent.id != b.intent.id
    requires a.intent.dayId == b.intent.dayId && a.intent.after == b.intent.after
    requires Plan(a, db) == Ok(plan) && Plan(b, db) == Ok(other)
    requires Execute(plan.stmt, a.fieldsValid, db) == Ok(w)
    requires Execute(other.stmt, b.fieldsValid, Affect(db, PutRow(w.id, w.row))) == Ok(v)
    ensures !Ordered(Affect(Affect(db, PutRow(w.id, w.row)), PutRow(v.id, v.row)))
  {
    var slots := Affect(Affect(db, PutRow(w.id, w.row)), PutRow(v.id, v.row)).rows.slots;
    SlotPlaced(a, db, plan, w);
    assert v.row.SlotRow? && v.id == b.intent.id && v.row.slot.position == w.row.slot.position;
    var bucket := Bucket(slots, a.intent.dayId);
    assert SlotPlace(slots, w.id) in bucket && SlotPlace(slots, v.id) in bucket;
    assert !Spaced(bucket);
  }

  // ----- days, too, end up where they are put -----

  function DayAnchorOf(days: map<ID, Day>, after: Option<ID>): Option<Place>
    requires after.Some? ==> after.value in days
  {
    if after.Some? then Some(Place(days[after.value].position, after.value)) else None
  }

  predicate IsLiveDay(days: map<ID, Day>, id: ID) {
    id in days && days[id].deletedAt.None?
  }

  lemma DayPositionSplits(days: map<ID, Day>, after: Option<ID>, key: Str)
    requires DaysSpaced(days) && NewPosition(DayNeighbours(days, after)) == Ok(key)
    ensures after.Some? ==> IsLiveDay(days, after.value)
    ensures Placeable(key) && SplitsAt(LiveDays(days), DayAnchorOf(days, after), key)
  {
    if after.Some? {
      assert Place(days[after.value].position, after.value) in LiveDays(days);
    }
    KeySplits(LiveDays(days), DayAnchorOf(days, after), key);
  }

  lemma DayPlaced(call: Call, db: Db, plan: Planned, w: Written)
    requires call.intent.CreateDay? || call.intent.MoveDay?
    requires Plan(call, db) == Ok(plan) && Execute(plan.stmt, call.fieldsValid, db) == Ok(w)
    ensures w.id == call.intent.id && w.row.DayRow? && w.row.day.deletedAt.None?
    ensures NewPosition(DayNeighbours(db.rows.days, call.intent.after)) == Ok(w.row.day.position)
  {
  }

  /** A committed create or move puts the day immediately after its anchor, first when it has none, and moves no other. */
  lemma DayPlacedAfterAnchor(call: Call, db: Db)
    requires Consistent(db) && Ordered(db)
    requires (call.intent.CreateDay? || call.intent.MoveDay?) && Atomic(call, db).Committed?
    ensures var id, after := call.intent.id, call.intent.after;
      var days, days' := db.rows.days, Atomic(call, db).db.rows.days;
      && IsLiveDay(days', id)
      && (after.Some? ==> IsLiveDay(days, after.value))
      && days' == days[id := days'[id]]
      && SplitsAt(LiveDays(days), DayAnchorOf(days, after), days'[id].position)
  {
    CommitsExactly(call, db);
    var plan := Plan(call, db).value;
    var w := Execute(plan.stmt, call.fieldsValid, db).value;
    DayPlaced(call, db, plan, w);
    DayPositionSplits(db.rows.days, call.intent.after, w.row.day.position);
  }

  function DayPlace(days: map<ID, Day>, id: ID): Place
    requires id in days
  {
    Place(days[id].position, id)
  }

  /** No live day stands between the anchor and the day placed after it. */
  lemma NoDayInBetween(call: Call, db: Db, q: ID)
    requires Consistent(db) && Ordered(db)
    requires (call.intent.CreateDay? || call.intent.MoveDay?) && Atomic(call, db).Committed?
    requires call.intent.after.Some?
    requires var a, days' := call.intent.after.value, Atomic(call, db).db.rows.days;
      a != call.intent.id && q != call.intent.id && q != a && IsLiveDay(days', a) && IsLiveDay(days', q)
    ensures var a, id, days' := call.intent.after.value, call.intent.id, Atomic(call, db).db.rows.days;
      && id in days' && Earlier(DayPlace(days', a), DayPlace(days', id))
      && !(Earlier(DayPlace(days', a), DayPlace(days', q)) && Earlier(DayPlace(days', q), DayPlace(days', id)))
  {
    DayPlacedAfterAnchor(call, db);
    var a, id, days, days' := call.intent.after.value, call.intent.id, db.rows.days, Atomic(call, db).db.rows.days;
    assert DayPlace(days, a) in LiveDays(days) && DayPlace(days, q) in LiveDays(days);
    SplitLeavesNoneBetween(LiveDays(days), DayPlace(days, a), DayPlace(days, q), days'[id].position, id);
  }

  lemma SplitLeavesNoneBetween(places: set<Place>, a: Place, q: Place, key: Str, id: ID)
    requires SplitsAt(places, Some(a), key) && a in places && q in places
    ensures Earlier(a, Place(key, id)) && !(Earlier(a, q) && Earlier(q, Place(key, id)))
  {
    EarlierTotal(a, a);
    assert StaysBefore(Some(a), a);
    if Earlier(a, q) {
      assert !StaysBefore(Some(a), q);
      LessAsymmetric(key, q.position);
    }
  }

  // ----- exactly when a create or a move commits -----

  /** Between these neighbours there is a key, and the position column takes it. */
  predicate HasRoom(b: Bounds) {
    && b.prev != SMALLEST && b.next != SMALLEST && (b.prev == b.next ==> b.prev == [])
    && (KeyBetween(b.prev, b.next).Ok? ==> |KeyBetween(b.prev, b.next).value| <= 128)
  }

  lemma PlaceableIsSome(position: Str)
    requires Placeable(position)
    ensures position != []
  {
    SentinelIsNoKey();
  }

  lemma RoomExactly(places: set<Place>, anchor: Option<Place>)
    requires Spaced(places) && (anchor.Some? ==> Placeable(anchor.value.position))
    ensures var b := BoundsAt(places, anchor);
      HasRoom(b) <==> KeyBetween(b.prev, b.next).Ok? && PositionFits(KeyBetween(b.prev, b.next).value)
  {
    var b := BoundsAt(places, anchor);
    KeyExactly(places, anchor);
    if KeyBetween(b.prev, b.next).Ok? {
      KeySplits(places, anchor, KeyBetween(b.prev, b.next).value);
      PlaceableIsSome(KeyBetween(b.prev, b.next).value);
    }
  }

  ghost predicate SlotRoom(slots: map<ID, Slot>, dayId: Option<ID>, after: Option<ID>) {
    && (after.Some? ==> IsLive(slots, after.value))
    && HasRoom(BoundsAt(Bucket(slots, dayId), AnchorOf(slots, after)))
  }

  lemma SlotRoomExactly(slots: map<ID, Slot>, dayId: Option<ID>, after: Option<ID>)
    requires SlotsSpaced(slots)
    ensures var p := NewPosition(SlotNeighbours(slots, dayId, after)); SlotRoom(slots, dayId, after) <==> p.Ok? && PositionFits(p.value)
  {
    PlaceableFromBuckets(slots);
    assert Spaced(Bucket(slots, dayId));
    if after.Some? ==> IsLive(slots, after.value) {
      RoomExactly(Bucket(slots, dayId), AnchorOf(slots, after));
    }
  }

  /** A slot is created or moved exactly when it is new or live under the version stated, its day exists, its anchor is live,
      there is room behind the anchor, and the client operation id is new. */
  lemma SlotPlacingCommitsExactly(call: Call, db: Db)
    requires Consistent(db) && Ordered(db) && (call.intent.CreateSlot? || call.intent.MoveSlot?)
    ensures Atomic(call, db).Committed? <==>
      && (if call.intent.CreateSlot? then call.intent.id !in db.rows.slots && call.fieldsValid
          else Live(db, SlotEntity, call.intent.id).Ok? && !Stale(call.intent, db))
      && DayExists(db, call.intent.dayId)
      && SlotRoom(db.rows.slots, call.intent.dayId, call.intent.after)
      && FreshClientOp(call, db.log)
  {
    CommitsExactly(call, db);
    SlotRoomExactly(db.rows.slots, call.intent.dayId, call.intent.after);
    SlotPlacingExecutes(call, db);
  }

  lemma SlotPlacingExecutes(call: Call, db: Db)
    requires call.intent.CreateSlot? || call.intent.MoveSlot?
    ensures (Plan(call, db).Ok? && Execute(Plan(call, db).value.stmt, call.fieldsValid, db).Ok?) <==>
      && (if call.intent.CreateSlot? then call.intent.id !in db.rows.slots && call.fieldsValid
          else Live(db, SlotEntity, call.intent.id).Ok? && !Stale(call.intent, db))
      && DayExists(db, call.intent.dayId)
      && var p := NewPosition(SlotNeighbours(db.rows.slots, call.intent.dayId, call.intent.after)); p.Ok? && PositionFits(p.value)
  {
  }

  ghost predicate DayRoom(days: map<ID, Day>, after: Option<ID>) {
    && (after.Some? ==> IsLiveDay(days, after.value))
    && HasRoom(BoundsAt(LiveDays(days), DayAnchorOf(days, after)))
  }

  lemma DayRoomExactly(days: map<ID, Day>, after: Option<ID>)
    requires DaysSpaced(days)
    ensures var p := NewPosition(DayNeighbours(days, after)); DayRoom(days, after) <==> p.Ok? && PositionFits(p.value)
  {
    if after.Some? ==> IsLiveDay(days, after.value) {
      if after.Some? {
        assert DayPlace(days, after.value) in LiveDays(days);
      }
      RoomExactly(LiveDays(days), DayAnchorOf(days, after));
    }
  }

  /** A day is created or moved exactly when it is new or live under the version stated, its values are valid, no other live
      day has its date, its anchor is live, there is room behind the anchor, and the client operation id is new. */
  lemma DayPlacingCommitsExactly(call: Call, db: Db)
    requires Consistent(db) && Ordered(db) && (call.intent.CreateDay? || call.intent.MoveDay?)
    ensures Atomic(call, db).Committed? <==>
      && (if call.intent.CreateDay? then call.intent.id !in db.rows.days && DateFree(db, call.intent.id, call.intent.date)
          else Live(db, DayEntity, call.intent.id).Ok? && !Stale(call.intent, db)
               && DateFree(db, call.intent.id, db.rows.days[call.intent.id].date))
      && call.fieldsValid
      && DayRoom(db.rows.days, call.intent.after)
      && FreshClientOp(call, db.log)
  {
    CommitsExactly(call, db);
    DayRoomExactly(db.rows.days, call.intent.after);
    DayPlacingExecutes(call, db);
  }

  lemma DayPlacingExecutes(call: Call, db: Db)
    requires call.intent.CreateDay? || call.intent.MoveDay?
    ensures (Plan(call, db).Ok? && Execute(Plan(call, db).value.stmt, call.fieldsValid, db).Ok?) <==>
      && (if call.intent.CreateDay? then call.intent.id !in db.rows.days && DateFree(db, call.intent.id, call.intent.date)
          else Live(db, DayEntity, call.intent.id).Ok? && !Stale(call.intent, db)
               && DateFree(db, call.intent.id, db.rows.days[call.intent.id].date))
      && call.fieldsValid
      && var p := NewPosition(DayNeighbours(db.rows.days, call.intent.after)); p.Ok? && PositionFits(p.value)
  {
  }

  // ----- how soon the position column can be full -----

  /** Live positions are at most n bytes long. */
  ghost predicate Within(db: Db, n: nat) {
    && (forall id :: IsLive(db.rows.slots, id) ==> |db.rows.slots[id].position| <= n)
    && (forall id :: IsLiveDay(db.rows.days, id) ==> |db.rows.days[id].position| <= n)
  }

  ghost predicate AllWithin(places: set<Place>, n: nat) {
    forall p :: p in places ==> |p.position| <= n
  }

  /** A key between two places is at most a byte longer than the longer of them. */
  lemma KeyWithin(places: set<Place>, anchor: Option<Place>, n: nat)
    requires AllWithin(places, n) && (anchor.Some? ==> |anchor.value.position| <= n) && n >= 1
    ensures var b := BoundsAt(places, anchor);
      KeyBetween(b.prev, b.next).Ok? ==> |KeyBetween(b.prev, b.next).value| <= n + 1
  {
    var b := BoundsAt(places, anchor);
    KeyBetweenIsDense(b.prev, b.next);
    var later := if anchor.Some? then Following(places, anchor.value) else places;
    if later != {} {
      assert First(later) in places;
    }
  }

  lemma SlotPositionWithin(db: Db, dayId: Option<ID>, after: Option<ID>, n: nat)
    requires Within(db, n) && n >= 1
    ensures var p := NewPosition(SlotNeighbours(db.rows.slots, dayId, after)); p.Ok? ==> |p.value| <= n + 1
  {
    var slots := db.rows.slots;
    if after.Some? ==> IsLive(slots, after.value) {
      forall p | p in Bucket(slots, dayId) ensures |p.position| <= n {
        assert IsLive(slots, p.id) && p == SlotPlace(slots, p.id);
      }
      KeyWithin(Bucket(slots, dayId), AnchorOf(slots, after), n);
    }
  }

  lemma DayPositionWithin(db: Db, after: Option<ID>, n: nat)
    requires Within(db, n) && n >= 1
    ensures var p := NewPosition(DayNeighbours(db.rows.days, after)); p.Ok? ==> |p.value| <= n + 1
  {
    var days := db.rows.days;
    if after.Some? ==> IsLiveDay(days, after.value) {
      forall p | p in LiveDays(days) ensures |p.position| <= n {
        assert IsLiveDay(days, p.id) && p == DayPlace(days, p.id);
      }
      KeyWithin(LiveDays(days), DayAnchorOf(days, after), n);
    }
  }

  lemma WithinPutSlot(db: Db, id: ID, s: Slot, n: nat)
    requires Within(db, n) && (s.deletedAt.None? ==> |s.position| <= n + 1)
    ensures Within(db.(rows := Put(db.rows, id, SlotRow(s))), n + 1)
  {
  }

  lemma WithinPutDay(db: Db, id: ID, d: Day, n: nat)
    requires Within(db, n) && (d.deletedAt.None? ==> |d.position| <= n + 1)
    ensures Within(db.(rows := Put(db.rows, id, DayRow(d))), n + 1)
  {
  }

  lemma WithinPutOther(db: Db, id: ID, row: Row, n: nat)
    requires Within(db, n) && !row.SlotRow? && !row.DayRow?
    ensures Within(db.(rows := Put(db.rows, id, row)), n + 1)
  {
  }

  lemma DayUnmoved(call: Call, db: Db, plan: Planned, w: Written)
    requires TargetTable(call.intent) == DayEntity && !call.intent.CreateDay? && !call.intent.MoveDay?
    requires Plan(call, db) == Ok(plan) && Execute(plan.stmt, call.fieldsValid, db) == Ok(w)
    ensures w.row.DayRow? && IsLiveDay(db.rows.days, w.id) && w.row.day.position == db.rows.days[w.id].position
  {
  }

  lemma WrittenWithin(call: Call, db: Db, plan: Planned, w: Written, n: nat)
    requires Within(db, n) && n >= 1
    requires Plan(call, db) == Ok(plan) && Execute(plan.stmt, call.fieldsValid, db) == Ok(w)
    ensures Within(db.(rows := Put(db.rows, w.id, w.row)), n + 1)
  {
    WrittenTable(call, db, plan, w);
    match TargetTable(call.intent)
    case SlotEntity =>
      if call.intent.CreateSlot? || call.intent.MoveSlot? {
        SlotPlaced(call, db, plan, w);
        SlotPositionWithin(db, call.intent.dayId, call.intent.after, n);
      } else {
        SlotUnmoved(call, db, plan, w);
      }
      WithinPutSlot(db, w.id, w.row.slot, n);
    case DayEntity =>
      if call.intent.CreateDay? || call.intent.MoveDay? {
        DayPlaced(call, db, plan, w);
        DayPositionWithin(db, call.intent.after, n);
      } else {
        DayUnmoved(call, db, plan, w);
      }
      WithinPutDay(db, w.id, w.row.day, n);
    case _ => WithinPutOther(db, w.id, w.row, n);
  }

  lemma GoneWithin(before: Db, after: Db, id: ID, at: Time, n: nat)
    requires Within(before, n) && id in before.rows.options && OptionGone(before, after, id, at)
    ensures Within(after, n + 1)
  {
  }

  /** A committed call makes no live position more than a byte longer than the longest there was. */
  lemma CommitWithin(call: Call, db: Db, n: nat)
    requires Consistent(db) && Within(db, n) && n >= 1 && Atomic(call, db).Committed?
    ensures Within(Atomic(call, db).db, n + 1)
  {
    if call.intent.DeleteOption? {
      DeleteOptionExactly(call, db);
      GoneWithin(db, Atomic(call, db).db, call.intent.id, ToMicro(call.now), n);
    } else {
      CommitsExactly(call, db);
      var plan := Plan(call, db).value;
      WrittenWithin(call, db, plan, Execute(plan.stmt, call.fieldsValid, db).value, n);
    }
  }

  /** The database after a list of calls, each run alone, those that are refused leaving it as it was. */
  ghost function Series(db: Db, calls: seq<Call>): Db {
    if calls == [] then db
    else
      var before := Series(db, calls[..|calls| - 1]);
      match Atomic(calls[|calls| - 1], before)
      case Committed(after) => after
      case RolledBack(_) => before
  }

  lemma {:induction false} SeriesWithin(db: Db, calls: seq<Call>, n: nat)
    requires Consistent(db) && Ordered(db) && Within(db, n) && n >= 1
    ensures var after := Series(db, calls); Consistent(after) && Ordered(after) && Within(after, n + |calls|)
  {
    if calls != [] {
      var front, call := calls[..|calls| - 1], calls[|calls| - 1];
      SeriesWithin(db, front, n);
      var before := Series(db, front);
      if Atomic(call, before).Committed? {
        CommittedKeepsConsistent(call, before);
        CompletionKeepsOrdered(call, Reading, before);
        CommitWithin(call, before, n + |front|);
      } else {
        assert Within(before, n + |calls|);
      }
    }
  }

  /** From positions of at most n bytes the cap of 128 cannot refuse any of the next 128 - n calls: wherever those calls
      insert, the next insertion has a position that fits if it has one at all. */
  lemma CapIsFarOff(db: Db, calls: seq<Call>, n: nat)
    requires Consistent(db) && Ordered(db) && Within(db, n) && n >= 1 && n + |calls| < 128
    ensures var d := Series(db, calls);
      && (forall dayId, after :: var p := NewPosition(SlotNeighbours(d.rows.slots, dayId, after)); p.Ok? ==> PositionFits(p.value))
      && (forall after :: var p := NewPosition(DayNeighbours(d.rows.days, after)); p.Ok? ==> PositionFits(p.value))
  {
    SeriesWithin(db, calls, n);
    var d := Series(db, calls);
    forall dayId, after ensures var p := NewPosition(SlotNeighbours(d.rows.slots, dayId, after)); p.Ok? ==> PositionFits(p.value) {
      SlotPositionWithin(d, dayId, after, n + |calls|);
      if NewPosition(SlotNeighbours(d.rows.slots, dayId, after)).Ok? {
        PlannedPositionSplits(d.rows.slots, dayId, after, NewPosition(SlotNeighbours(d.rows.slots, dayId, after)).value);
        PlaceableIsSome(NewPosition(SlotNeighbours(d.rows.slots, dayId, after)).value);
      }
    }
    forall after ensures var p := NewPosition(DayNeighbours(d.rows.days, after)); p.Ok? ==> PositionFits(p.value) {
      DayPositionWithin(d, after, n + |calls|);
      if NewPosition(DayNeighbours(d.rows.days, after)).Ok? {
        DayPositionSplits(d.rows.days, after, NewPosition(DayNeighbours(d.rows.days, after)).value);
        PlaceableIsSome(NewPosition(DayNeighbours(d.rows.days, after)).value);
      }
    }
  }
}
