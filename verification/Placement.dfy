/** Ordered lists of rows: the (position, id) order and the neighbour lookups
    (internal/repository/slot.go and day.go NeighbourPositions, and their SQL). */
module Placement {
  import opened Outcomes
  import opened ByteOrder
  import opened Domain

  datatype Place = Place(position: Str, id: ID)

  /** ORDER BY position, id: positions bytewise (COLLATE "C"), ids break ties. */
  predicate Earlier(p: Place, q: Place) {
    Less(p.position, q.position) || (p.position == q.position && p.id < q.id)
  }

  lemma EarlierTransitive(p: Place, q: Place, r: Place)
    requires Earlier(p, q) && Earlier(q, r)
    ensures Earlier(p, r)
  {
    if Less(p.position, q.position) && Less(q.position, r.position) {
      LessTransitive(p.position, q.position, r.position);
    }
  }

  lemma EarlierTotal(p: Place, q: Place)
    ensures p == q || Earlier(p, q) || Earlier(q, p)
    ensures Earlier(p, q) ==> p != q && !Earlier(q, p)
  {
    LessTotal(p.position, q.position);
    LessIrreflexive(p.position);
    if Less(p.position, q.position) {
      LessAsymmetric(p.position, q.position);
    }
  }

  predicate IsFirst(p: Place, places: set<Place>) {
    p in places && forall q :: q in places ==> q == p || Earlier(p, q)
  }

  lemma {:induction false} FirstExists(places: set<Place>) returns (p: Place)
    requires places != {}
    ensures IsFirst(p, places)
    decreases |places|
  {
    var c :| c in places;
    var rest := places - {c};
    assert forall x :: x in places ==> x == c || x in rest;
    p := c;
    if rest != {} {
      var q := FirstExists(rest);
      EarlierTotal(c, q);
      if Earlier(q, c) {
        p := q;
      } else {
        forall x | x in rest && x != q ensures Earlier(c, x) {
          EarlierTransitive(c, q, x);
        }
      }
    }
  }

  /** The place a query ordered by (position, id) returns first. */
  ghost function First(places: set<Place>): (p: Place)
    requires places != {}
    ensures IsFirst(p, places)
  {
    assert exists p :: IsFirst(p, places) by { var p := FirstExists(places); }
    var p :| IsFirst(p, places);
    p
  }

  lemma FirstIs(places: set<Place>, p: Place)
    requires IsFirst(p, places)
    ensures First(places) == p
  {
    EarlierTotal(p, First(places));
  }

  /** The position that query returns, or the empty string when it finds no row. */
  ghost function FirstPosition(places: set<Place>): Str {
    if places == {} then [] else First(places).position
  }

  ghost function Following(places: set<Place>, p: Place): set<Place> {
    set q | q in places && Earlier(p, q)
  }

  function SlotPlace(slots: map<ID, Slot>, id: ID): Place
    requires id in slots
  {
    Place(slots[id].position, id)
  }

  /** The live slots of one day, or of the backlog when the day is None. */
  ghost function Bucket(slots: map<ID, Slot>, dayId: Option<ID>): set<Place> {
    set id | id in slots && slots[id].deletedAt.None? && slots[id].dayId == dayId :: SlotPlace(slots, id)
  }

  ghost function LiveDays(days: map<ID, Day>): set<Place> {
    set id | id in days && days[id].deletedAt.None? :: Place(days[id].position, id)
  }

  datatype Bounds = Bounds(prev: Str, next: Str)

  /** NeighbourPositions for slots. The anchor may live in another bucket; it must be live. */
  ghost function SlotNeighbours(slots: map<ID, Slot>, dayId: Option<ID>, after: Option<ID>): Option<Bounds> {
    match after
    case None => Some(Bounds([], FirstPosition(Bucket(slots, dayId))))
    case Some(a) =>
      if a !in slots || slots[a].deletedAt.Some? then None
      else Some(Bounds(slots[a].position, FirstPosition(Following(Bucket(slots, dayId), SlotPlace(slots, a)))))
  }

  ghost function DayNeighbours(days: map<ID, Day>, after: Option<ID>): Option<Bounds> {
    match after
    case None => Some(Bounds([], FirstPosition(LiveDays(days))))
    case Some(a) =>
      if a !in days || days[a].deletedAt.Some? then None
      else Some(Bounds(days[a].position, FirstPosition(Following(LiveDays(days), Place(days[a].position, a)))))
  }
}
