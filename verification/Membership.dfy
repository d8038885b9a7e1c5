/** Who is in which room: from the moment a subscription joins until it is closed, its room is the trip's and counts it among
    its members (internal/syncengine/broker.go Subscribe and remove). */
module Membership {
  import opened Outcomes
  import opened Domain
  import opened Delivery
  import opened DeliverySafety

  /** A subscription is among its room's members exactly while it has not been closed, and its room is then the trip's. */
  ghost predicate InPlace(h: Hub, s: Sub, u: SubId) {
    && s.room in h.rooms
    && (u in h.rooms[s.room].members <==> !s.closed)
    && (!s.closed ==> h.current == Some(s.room))
  }

  /** And the trip's room is never empty: an empty one leaves the broker's map. */
  ghost predicate Placed(h: Hub) {
    && (forall u :: u in h.subs ==> InPlace(h, h.subs[u], u))
    && (h.current.Some? ==> h.current.value in h.rooms && h.rooms[h.current.value].members != {})
  }

  /** Nobody has come or gone. */
  ghost predicate SamePlaces(h: Hub, h': Hub) {
    && h'.current == h.current && h'.rooms.Keys == h.rooms.Keys && h'.subs.Keys == h.subs.Keys
    && (forall r :: r in h.rooms ==> h'.rooms[r].members == h.rooms[r].members)
    && (forall u :: u in h.subs ==> h'.subs[u].room == h.subs[u].room && h'.subs[u].closed == h.subs[u].closed)
  }

  lemma SamePlacesKeep(h: Hub, h': Hub)
    requires Placed(h) && SamePlaces(h, h')
    ensures Placed(h')
  {
    forall u | u in h'.subs ensures InPlace(h', h'.subs[u], u) {
      assert InPlace(h, h.subs[u], u);
    }
  }

  lemma {:induction false} FlushKeepsPlace(s: Sub, ops: seq<Op>, accepts: nat -> bool)
    ensures var t := Flush(s, ops, accepts); t.room == s.room && t.closed == s.closed && t.from == s.from
  {
    if ops != [] {
      FlushKeepsPlace(s, ops[..|ops| - 1], accepts);
    }
  }

  lemma SubStepsStay(h: Hub, a: Action)
    requires Enabled(h, a) && (a.StartReplay? || a.Fetch? || a.Stream? || a.EndPage? || a.OpenGate?)
    ensures SamePlaces(h, Take(h, a))
  {
    if a.OpenGate? {
      FlushKeepsPlace(h.subs[a.u], h.subs[a.u].buffer, a.verdicts);
    }
  }

  /** Only joining and closing move anyone. */
  lemma OthersStay(h: Hub, a: Action)
    requires Enabled(h, a) && !a.Join? && !a.Close?
    ensures SamePlaces(h, Take(h, a))
  {
    if a.StartReplay? || a.Fetch? || a.Stream? || a.EndPage? || a.OpenGate? {
      SubStepsStay(h, a);
    }
  }

  lemma JoinPlaces(h: Hub, u: SubId, r: RoomId, head: nat, since: Option<nat>)
    requires Placed(h) && Enabled(h, Join(u, r, head, since))
    ensures Placed(Joined(h, u, r, head, since))
  {
    var h' := Joined(h, u, r, head, since);
    forall v | v in h'.subs ensures InPlace(h', h'.subs[v], v) {
      if v != u {
        assert InPlace(h, h.subs[v], v);
      }
    }
  }

  lemma ClosePlaces(h: Hub, u: SubId)
    requires Placed(h) && u in h.subs
    ensures Placed(Closed(h, u))
  {
    var h' := Closed(h, u);
    assert InPlace(h, h.subs[u], u);
    forall v | v in h'.subs ensures InPlace(h', h'.subs[v], v) {
      assert InPlace(h, h.subs[v], v);
    }
  }

  lemma TakePlaces(h: Hub, a: Action)
    requires Placed(h) && Enabled(h, a)
    ensures Placed(Take(h, a))
  {
    match a
    case Join(u, r, head, since) => JoinPlaces(h, u, r, head, since);
    case Close(u) => ClosePlaces(h, u);
    case _ =>
      OthersStay(h, a);
      SamePlacesKeep(h, Take(h, a));
  }

  // ----- one subscription -----

  /** u subscribed into room r from a sequence number, and has not been closed. */
  predicate Subscribed(h: Hub, u: SubId, r: RoomId, from: nat) {
    u in h.subs && h.subs[u].room == r && h.subs[u].from == from && !h.subs[u].closed
  }

  /** Joining subscribes, from the number the client gave or else from the head. */
  lemma JoinSubscribes(h: Hub, u: SubId, r: RoomId, head: nat, since: Option<nat>)
    requires Enabled(h, Join(u, r, head, since))
    ensures Subscribed(Joined(h, u, r, head, since), u, r, if since.Some? then since.value else head)
  {
  }

  /** A subscription ends only by being closed. */
  lemma StaysSubscribed(h: Hub, a: Action, u: SubId, r: RoomId, from: nat)
    requires Subscribed(h, u, r, from) && Enabled(h, a) && a != Close(u)
    ensures Subscribed(Take(h, a), u, r, from)
  {
    if a.OpenGate? {
      FlushKeepsPlace(h.subs[a.u], h.subs[a.u].buffer, a.verdicts);
    }
  }

  /** And while it lasts the trip has a room, it is the subscription's, and the subscription is in it. */
  lemma SubscribedIsMember(h: Hub, u: SubId, r: RoomId, from: nat)
    requires Placed(h) && Subscribed(h, u, r, from)
    ensures h.current == Some(r) && r in h.rooms && u in h.rooms[r].members
  {
    assert InPlace(h, h.subs[u], u);
  }
}
