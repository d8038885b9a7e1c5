/** From subscribing to being up to date: who can subscribe, and that whoever does has the whole log before its eyes once the
    log is quiet for as long as its replay and a few reconciliations take. */
module Arrivals {
  import opened Outcomes
  import opened Domain
  import opened Folding
  import opened Exactness
  import opened LiveTrip
  import D = Delivery
  import M = Membership
  import T = Turns
  import opened CatchUp

  // ----- delivery steps as events -----

  function AsEvents(actions: seq<D.Action>): seq<Event> {
    seq(|actions|, i requires 0 <= i < |actions| => Deliver(actions[i]))
  }

  /** Steps that need nobody to write or publish. */
  predicate Unprompted(actions: seq<D.Action>) {
    forall i :: 0 <= i < |actions| ==> !actions[i].Grow? && !actions[i].Receive?
  }

  lemma {:induction false} LiveOn(maxResync: nat, events: seq<Event>, actions: seq<D.Action>)
    requires T.Runs(Live(maxResync, events).hub, actions) && Unprompted(actions)
    ensures var t := Live(maxResync, events);
      Live(maxResync, events + AsEvents(actions)) == t.(hub := T.Ran(t.hub, actions))
  {
    if actions == [] {
      assert events + AsEvents(actions) == events;
    } else {
      var n := |actions| - 1;
      LiveOn(maxResync, events, actions[..n]);
      assert AsEvents(actions)[..n] == AsEvents(actions[..n]);
      assert (events + AsEvents(actions))[..|events| + n] == events + AsEvents(actions[..n]);
      assert (events + AsEvents(actions))[|events| + n] == Deliver(actions[n]);
    }
  }

  lemma AnsweredIsUnprompted(actions: seq<D.Action>, accepts: (D.SubId, Op) -> bool)
    requires T.Answered(actions, false, accepts)
    ensures Unprompted(actions)
  {
    forall i | 0 <= i < |actions| ensures !actions[i].Grow? && !actions[i].Receive? {
      assert T.Answers(actions[i], false, accepts);
    }
  }

  lemma ReplayIsUnprompted(actions: seq<D.Action>, u: D.SubId)
    requires AllReplay(actions, u)
    ensures Unprompted(actions)
  {
    forall i | 0 <= i < |actions| ensures !actions[i].Grow? && !actions[i].Receive? {
      assert Replays(actions[i], u);
    }
  }

  // ----- being up to date -----

  /** The subscriber has counted the whole log, and its client has folded it without meeting an error. */
  ghost predicate UpToDate(t: Trip, u: D.SubId) {
    var log := t.world.db.log;
    && u in t.hub.subs && t.hub.subs[u].count == |log| && Fold(log).Ok? && t.hub.subs[u].from <= |log|
    && ClientOf(log, t.hub.subs[u]) == Client(Fold(log).value, false)
  }

  lemma CountedIsUpToDate(t: Trip, u: D.SubId)
    requires Sound(t) && Listening(t.hub, u) && t.hub.subs[u].count == |t.hub.log|
    ensures UpToDate(t, u)
  {
    SubscriberTracks(t, u, t.hub.subs[u]);
    SawNoGap(t.hub, u);
    WholeFold(t.hub.log);
  }

  lemma SawNoGap(h: D.Hub, u: D.SubId)
    requires D.Inv(h) && Listening(h, u)
    ensures !h.subs[u].sawGap
  {
    assert D.SubSound(h.log, h.subs[u]);
  }

  lemma {:induction false} WholeFold(log: seq<Op>)
    requires Fold(log).Ok?
    ensures StateAt(log, |log|) == Fold(log).value
  {
    assert log[..|log|] == log;
    StateIs(log, |log|);
  }

  /** In any reachable state, if nothing more is written, a listening subscriber is brought up to date by one reconciliation of
      its room for each page of the log, even if every publication was lost and whatever the other subscribers answer. */
  lemma {:induction false} ListenerGetsEverything(maxResync: nat, events: seq<Event>, u: D.SubId, turns: nat,
                                                  accepts: (D.SubId, Op) -> bool)
      returns (more: seq<D.Action>)
    requires Listening(Live(maxResync, events).hub, u) && Willing(accepts, u)
    requires turns * D.PAGE >= |Live(maxResync, events).world.db.log|
    ensures T.Answered(more, false, accepts) && T.TurnsIn(more) == turns
    ensures var t := Live(maxResync, events + AsEvents(more));
      t.world == Live(maxResync, events).world && UpToDate(t, u)
  {
    var t := Live(maxResync, events);
    EveryEvent(maxResync, events);
    more := ListenerCatchesUp(t.hub, u, turns, accepts);
    AnsweredIsUnprompted(more, accepts);
    LiveOn(maxResync, events, more);
    EveryEvent(maxResync, events + AsEvents(more));
    CountedIsUpToDate(Live(maxResync, events + AsEvents(more)), u);
  }

  /** A subscriber whose replay has yet to start and has no more to deliver than it may: its replay and those reconciliations
      bring it up to date. */
  lemma {:induction false} SubscriberGetsEverything(maxResync: nat, events: seq<Event>, u: D.SubId, turns: nat,
                                                    accepts: (D.SubId, Op) -> bool)
      returns (replay: seq<D.Action>, more: seq<D.Action>)
    requires var h := Live(maxResync, events).hub;
      && u in h.subs && h.subs[u].clean && !h.subs[u].closed && h.subs[u].replay.Unstarted?
      && |h.log| - h.subs[u].from <= h.maxResync
    requires Willing(accepts, u) && turns * D.PAGE >= |Live(maxResync, events).world.db.log|
    ensures AllReplay(replay, u) && T.Answered(more, false, accepts) && T.TurnsIn(more) == turns
    ensures var t := Live(maxResync, events + AsEvents(replay) + AsEvents(more));
      t.world == Live(maxResync, events).world && UpToDate(t, u)
  {
    EveryEvent(maxResync, events);
    replay := ReplayIsARun(Live(maxResync, events).hub, u);
    ReplayIsUnprompted(replay, u);
    LiveOn(maxResync, events, replay);
    more := ListenerGetsEverything(maxResync, events + AsEvents(replay), u, turns, accepts);
  }

  // ----- subscribing -----

  lemma FreshRoom(rooms: set<D.RoomId>) returns (r: D.RoomId)
    ensures r !in rooms
  {
    r := 0;
    var rest := rooms;
    while r in rooms
      invariant forall q :: q in rooms && q >= r ==> q in rest
      invariant forall q :: q in rest ==> q >= r
      decreases |rest|
    {
      rest := rest - {r};
      r := r + 1;
    }
  }

  /** Subscribing with the trip's present head is possible exactly for a client that is not ahead of it and no further behind
      than the server replays; one that names no number always may. */
  lemma CanJoinExactly(maxResync: nat, events: seq<Event>, u: D.SubId, since: Option<nat>)
    requires u !in Live(maxResync, events).hub.subs
    ensures var t := Live(maxResync, events);
      var head := |t.world.db.log|;
      (exists r :: Possible(t, D.Join(u, r, head, since)))
      <==> (since.None? || (since.value <= head && head - since.value <= maxResync))
  {
    var t := Live(maxResync, events);
    EveryEvent(maxResync, events);
    SameLimit(maxResync, events);
    var unused := FreshRoom(t.hub.rooms.Keys);
    var r := if t.hub.current.Some? then t.hub.current.value else unused;
    if since.None? || (since.value <= |t.hub.log| && |t.hub.log| - since.value <= maxResync) {
      assert Possible(t, D.Join(u, r, |t.hub.log|, since));
    }
  }

  lemma {:induction false} SameLimit(maxResync: nat, events: seq<Event>)
    ensures Live(maxResync, events).hub.maxResync == maxResync
  {
    if events != [] {
      SameLimit(maxResync, events[..|events| - 1]);
    }
  }

  lemma Arrived(maxResync: nat, events: seq<Event>, join: D.Action)
    requires join.Join? && Possible(Live(maxResync, events), join) && join.head == |Live(maxResync, events).hub.log|
    ensures var t, t' := Live(maxResync, events), Live(maxResync, events + [Deliver(join)]);
      && t'.world == t.world && join.u in t'.hub.subs
      && var s := t'.hub.subs[join.u];
         && s.clean && !s.closed && s.replay.Unstarted? && |t'.hub.log| - s.from <= t'.hub.maxResync
         && s.from == if join.since.Some? then join.since.value else join.head
  {
    assert (events + [Deliver(join)])[..|events|] == events;
  }

  /** Whoever subscribes at the present head gets everything: the client goes from the number it gave to the fold of the whole
      log, by its replay alone followed by the room's reconciliations. */
  lemma {:induction false} JoinerGetsEverything(maxResync: nat, events: seq<Event>, join: D.Action, turns: nat,
                                                accepts: (D.SubId, Op) -> bool)
      returns (replay: seq<D.Action>, more: seq<D.Action>)
    requires join.Join? && Possible(Live(maxResync, events), join) && join.head == |Live(maxResync, events).world.db.log|
    requires Willing(accepts, join.u) && turns * D.PAGE >= |Live(maxResync, events).world.db.log|
    ensures AllReplay(replay, join.u) && T.Answered(more, false, accepts) && T.TurnsIn(more) == turns
    ensures var t := Live(maxResync, events + [Deliver(join)] + AsEvents(replay) + AsEvents(more));
      t.world == Live(maxResync, events).world && UpToDate(t, join.u)
  {
    EveryEvent(maxResync, events);
    Arrived(maxResync, events, join);
    replay, more := SubscriberGetsEverything(maxResync, events + [Deliver(join)], join.u, turns, accepts);
  }
}
