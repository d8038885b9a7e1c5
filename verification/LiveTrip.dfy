/** Writers and subscribers of one trip together: the write machine commits and publishes, the delivery protocol carries
    what is published, and clients fold it. */
module LiveTrip {
  import opened Outcomes
  import opened Domain
  import opened Folding
  import C = Convergence
  import opened Exactness
  import Writes
  import W = WriteMachine
  import D = Delivery
  import S = DeliverySafety
  import M = Membership

  // ----- a client folding what it accepts -----

  /** What a client holds, and whether it was ever refused an operation. */
  datatype Client = Client(replica: Replica, sawError: bool)

  type Applier = (Replica, Op) -> Applied

  /** The client's state after applying what its sink accepted; a refused operation does not stop it. */
  function After(apply: Applier, start: Replica, got: seq<Op>): Client {
    if got == [] then Client(start, false)
    else
      var c := After(apply, start, got[..|got| - 1]);
      var a := apply(c.replica, got[|got| - 1]);
      Client(a.replica, c.sawError || a.error.Some?)
  }

  function CountOf(from: nat, got: seq<Op>): nat {
    if got == [] then from
    else
      var n := CountOf(from, got[..|got| - 1]);
      if got[|got| - 1].seqno == n + 1 then n + 1 else n
  }

  predicate GapIn(from: nat, got: seq<Op>) {
    got != [] && (GapIn(from, got[..|got| - 1]) || got[|got| - 1].seqno > CountOf(from, got[..|got| - 1]) + 1)
  }

  /** The states a log passes through: apply takes each to the next with the log's next operation, skips what a state has
      counted, and refuses what lies further ahead. */
  ghost predicate Passes(apply: Applier, log: seq<Op>, states: seq<Replica>) {
    && |states| == |log| + 1
    && (forall k :: 0 <= k <= |log| ==> states[k].seqno == k)
    && (forall k :: 0 <= k < |log| ==> apply(states[k], log[k]) == Applied(states[k + 1], None))
    && (forall r: Replica, op: Op :: op.seqno <= r.seqno ==> apply(r, op) == Applied(r, None))
    && (forall r: Replica, op: Op :: op.seqno > r.seqno + 1 ==> apply(r, op) == Applied(r, Some(Gap)))
  }

  /** Whatever operations of the log reach a client, in whatever order and how often, it only ever passes through the
      log's own states; and it meets an error exactly when one reaches it too far ahead. */
  lemma {:induction false} ClientPasses(apply: Applier, log: seq<Op>, states: seq<Replica>, from: nat, got: seq<Op>)
    requires Passes(apply, log, states) && from <= |log| && D.AllInLog(log, got)
    ensures CountOf(from, got) <= |log|
    ensures After(apply, states[from], got) == Client(states[CountOf(from, got)], GapIn(from, got))
  {
    if got != [] {
      ClientPasses(apply, log, states, from, got[..|got| - 1]);
      assert D.InLog(log, got[|got| - 1]);
    }
  }

  lemma {:induction false} FoldCounts(log: seq<Op>)
    requires D.Numbered(log) && Fold(log).Ok?
    ensures Fold(log).value.seqno == |log|
  {
    if log != [] {
      FoldCounts(log[..|log| - 1]);
    }
  }

  lemma {:induction false} FoldStep(front: seq<Op>, op: Op, all: seq<Op>, before: Replica, after: Replica)
    requires all == front + [op] && Fold(front) == Ok(before) && Fold(all) == Ok(after)
    ensures Apply(before, op) == Applied(after, None)
  {
  }

  ghost function StateAt(log: seq<Op>, k: nat): Replica
    requires Fold(log).Ok? && k <= |log|
  {
    PrefixFolds(log, k);
    Fold(log[..k]).value
  }

  lemma {:induction false} StateSteps(log: seq<Op>, k: nat)
    requires Fold(log).Ok? && k < |log|
    ensures Apply(StateAt(log, k), log[k]) == Applied(StateAt(log, k + 1), None)
  {
    var before, after := StateAt(log, k), StateAt(log, k + 1);
    assert log[..k + 1] == log[..k] + [log[k]];
    StateIs(log, k);
    StateIs(log, k + 1);
    FoldStep(log[..k], log[k], log[..k + 1], before, after);
  }

  lemma {:induction false} StateIs(log: seq<Op>, k: nat)
    requires Fold(log).Ok? && k <= |log|
    ensures Fold(log[..k]) == Ok(StateAt(log, k))
  {
    PrefixFolds(log, k);
  }

  lemma {:induction false} StateCounts(log: seq<Op>, k: nat)
    requires D.Numbered(log) && Fold(log).Ok? && k <= |log|
    ensures StateAt(log, k).seqno == k
  {
    PrefixFolds(log, k);
    FoldCounts(log[..k]);
  }

  lemma ApplyOutOfTurn()
    ensures forall r: Replica, op: Op :: op.seqno <= r.seqno ==> Apply(r, op) == Applied(r, None)
    ensures forall r: Replica, op: Op :: op.seqno > r.seqno + 1 ==> Apply(r, op) == Applied(r, Some(Gap))
  {
  }

  lemma {:induction false} FoldPasses(log: seq<Op>, states: seq<Replica>)
    requires D.Numbered(log) && Fold(log).Ok? && |states| == |log| + 1
    requires forall k :: 0 <= k <= |log| ==> states[k] == StateAt(log, k)
    ensures Passes(Apply, log, states)
  {
    ApplyOutOfTurn();
    forall k | 0 <= k <= |log| ensures states[k].seqno == k {
      StateCounts(log, k);
    }
    forall k | 0 <= k < |log| ensures Apply(states[k], log[k]) == Applied(states[k + 1], None) {
      StateSteps(log, k);
    }
  }

  /** A client that starts at the fold of a prefix stays at the fold of a prefix: the one it counts. */
  lemma {:induction false} ClientTracks(log: seq<Op>, from: nat, got: seq<Op>)
    requires D.Numbered(log) && Fold(log).Ok? && from <= |log| && D.AllInLog(log, got)
    ensures CountOf(from, got) <= |log|
    ensures After(Apply, StateAt(log, from), got) == Client(StateAt(log, CountOf(from, got)), GapIn(from, got))
    ensures StateAt(log, CountOf(from, got)).seqno == CountOf(from, got)
  {
    var states := seq(|log| + 1, k requires 0 <= k <= |log| => StateAt(log, k));
    FoldPasses(log, states);
    ClientPasses(Apply, log, states, from, got);
  }

  // ----- the subscriber's counter is its client's -----

  predicate Tracks(s: D.Sub) {
    s.count == CountOf(s.from, s.got) && s.sawGap == GapIn(s.from, s.got)
  }

  lemma AcceptTracks(s: D.Sub, op: Op)
    requires Tracks(s)
    ensures Tracks(D.Accept(s, op))
  {
  }

  lemma {:induction false} FlushTracks(s: D.Sub, ops: seq<Op>, accepts: nat -> bool)
    requires Tracks(s)
    ensures Tracks(D.Flush(s, ops, accepts))
  {
    if ops != [] {
      var before := D.Flush(s, ops[..|ops| - 1], accepts);
      FlushTracks(s, ops[..|ops| - 1], accepts);
      AcceptTracks(before, ops[|ops| - 1]);
    }
  }

  lemma TakeTracks(h: D.Hub, a: D.Action)
    requires D.Enabled(h, a) && forall u :: u in h.subs ==> Tracks(h.subs[u])
    ensures forall u :: u in D.Take(h, a).subs ==> Tracks(D.Take(h, a).subs[u])
  {
    match a
    case Send(r, u, accepts) => AcceptTracks(h.subs[u], h.rooms[r].mode.op);
    case Stream(u, accepts) => AcceptTracks(h.subs[u], h.subs[u].replay.rest[0]);
    case OpenGate(u, verdicts) => FlushTracks(h.subs[u], h.subs[u].buffer, verdicts);
    case _ =>
  }

  // ----- both machines -----

  datatype Trip = Trip(world: W.World, hub: D.Hub)

  datatype Event = Write(w: W.Action) | Deliver(d: D.Action)

  function Start(maxResync: nat): Trip {
    Trip(W.START, D.Hub([], maxResync, map[], None, map[]))
  }

  /** A delivery step is possible now; the transport carries only what has been published, and the log is not its own. */
  predicate Possible(t: Trip, d: D.Action) {
    && D.Enabled(t.hub, d) && !d.Grow?
    && (d.Receive? ==> t.hub.log[d.k] in t.world.published)
  }

  /** One event. The subscribers' side reads the committed log as it stands. */
  ghost function Happen(t: Trip, e: Event): Trip {
    match e
    case Write(w) =>
      var world := W.Take(t.world, w);
      Trip(world, t.hub.(log := world.db.log))
    case Deliver(d) => if Possible(t, d) then t.(hub := D.Take(t.hub, d)) else t
  }

  ghost function Live(maxResync: nat, events: seq<Event>): Trip {
    if events == [] then Start(maxResync) else Happen(Live(maxResync, events[..|events| - 1]), events[|events| - 1])
  }

  ghost predicate Sound(t: Trip) {
    && W.Inv(t.world) && D.Inv(t.hub) && M.Placed(t.hub) && t.hub.log == t.world.db.log
    && forall u :: u in t.hub.subs ==> Tracks(t.hub.subs[u])
  }

  lemma {:induction false} HappenKeeps(t: Trip, e: Event)
    requires Sound(t)
    ensures Sound(Happen(t, e))
  {
    match e
    case Write(w) =>
      W.TakeKeeps(t.world, w);
      W.LogGrows(t.world, w);
      S.GrowKeeps(t.hub, W.Take(t.world, w).db.log);
    case Deliver(d) =>
      if Possible(t, d) {
        S.TakeKeeps(t.hub, d);
        M.TakePlaces(t.hub, d);
        TakeTracks(t.hub, d);
        OnlyGrowGrows(t.hub, d);
      }
  }

  lemma OnlyGrowGrows(h: D.Hub, d: D.Action)
    requires D.Enabled(h, d) && !d.Grow?
    ensures D.Take(h, d).log == h.log
  {
  }

  lemma {:induction false} EveryEvent(maxResync: nat, events: seq<Event>)
    ensures Sound(Live(maxResync, events))
  {
    if events == [] {
      W.EveryRun([]);
    } else {
      EveryEvent(maxResync, events[..|events| - 1]);
      HappenKeeps(Live(maxResync, events[..|events| - 1]), events[|events| - 1]);
    }
  }

  /** The client of a subscription: it starts from the fold of the log up to where it subscribed. */
  ghost function ClientOf(log: seq<Op>, s: D.Sub): Client
    requires Fold(log).Ok? && s.from <= |log|
  {
    After(Apply, StateAt(log, s.from), s.got)
  }

  lemma {:induction false} SubscriberTracks(t: Trip, u: D.SubId, s: D.Sub)
    requires Sound(t) && u in t.hub.subs && s == t.hub.subs[u]
    ensures var log := t.world.db.log;
      && Fold(log).Ok? && |log| == t.world.db.rows.seqno
      && s.from <= |log| && s.count <= |log|
      && ClientOf(log, s) == Client(StateAt(log, s.count), s.sawGap)
      && StateAt(log, s.count).seqno == s.count
  {
    var log := t.world.db.log;
    assert D.SubSound(log, s) && Tracks(s);
    ClientTracks(log, s.from, s.got);
  }

  /** A subscriber's client holds exactly the fold of the log up to its own sequence number; while every delivery has been
      accepted and the replay has not failed it has never met an error; and when it has counted the whole log it agrees with
      the database but for latitudes and nanoseconds, and holds its very rows exactly when the log is faithful. */
  ghost predicate Follows(t: Trip, s: D.Sub) {
    var log := t.world.db.log;
    && Fold(log).Ok? && s.from <= |log|
    && var c := ClientOf(log, s);
       && c.replica.seqno <= |log| && c.replica == StateAt(log, c.replica.seqno)
       && (s.clean && !D.ReplayFailed(s.replay) ==> !c.sawError)
       && (c.replica.seqno == t.world.db.rows.seqno ==>
             Agree(c.replica, t.world.db.rows) && (c.replica == t.world.db.rows <==> Faithful(log)))
  }

  lemma {:induction false} SoundFollows(t: Trip, u: D.SubId)
    requires Sound(t) && u in t.hub.subs
    ensures Follows(t, t.hub.subs[u])
  {
    SubscriberTracks(t, u, t.hub.subs[u]);
    assert D.SubSound(t.hub.log, t.hub.subs[u]);
    CaughtUpAgrees(t.world.db);
  }

  /** Who has counted the whole log holds its fold. */
  lemma CaughtUpAgrees(db: Writes.Db)
    requires C.Sound(db)
    ensures Fold(db.log).Ok?
    ensures var r := StateAt(db.log, |db.log|); Agree(r, db.rows) && (r == db.rows <==> Faithful(db.log))
  {
    assert db.log[..|db.log|] == db.log;
    FoldAgrees(db);
    FoldIsRowsExactly(db);
  }

  /** End to end: every subscriber follows the log, under every interleaving of writers, lossy broadcasts, timers, joins,
      closes and replays, whatever its sink refused and whether or not its replay succeeded. */
  lemma {:induction false} EndToEnd(maxResync: nat, events: seq<Event>, u: D.SubId)
    requires u in Live(maxResync, events).hub.subs
    ensures Follows(Live(maxResync, events), Live(maxResync, events).hub.subs[u])
  {
    EveryEvent(maxResync, events);
    SoundFollows(Live(maxResync, events), u);
  }

  /** A subscription joins at some event and none of the later ones closes it. */
  ghost predicate JoinedSince(before: seq<Event>, join: D.Action, after: seq<Event>, maxResync: nat) {
    && join.Join? && Possible(Live(maxResync, before), join)
    && forall i :: 0 <= i < |after| ==> after[i] != Deliver(D.Close(join.u))
  }

  lemma HappenSubscribed(t: Trip, e: Event, u: D.SubId, r: D.RoomId, from: nat)
    requires M.Subscribed(t.hub, u, r, from) && e != Deliver(D.Close(u))
    ensures M.Subscribed(Happen(t, e).hub, u, r, from)
  {
    if e.Deliver? && Possible(t, e.d) {
      M.StaysSubscribed(t.hub, e.d, u, r, from);
    }
  }

  lemma {:induction false} StaysSubscribed(maxResync: nat, before: seq<Event>, join: D.Action, after: seq<Event>)
    requires JoinedSince(before, join, after, maxResync)
    ensures M.Subscribed(Live(maxResync, before + [Deliver(join)] + after).hub, join.u, join.r,
                         if join.since.Some? then join.since.value else join.head)
  {
    var start, from := before + [Deliver(join)], if join.since.Some? then join.since.value else join.head;
    if after == [] {
      assert start + after == start && start[..|before|] == before;
      M.JoinSubscribes(Live(maxResync, before).hub, join.u, join.r, join.head, join.since);
    } else {
      var n := |after| - 1;
      StaysSubscribed(maxResync, before, join, after[..n]);
      assert (start + after)[..|start| + n] == start + after[..n];
      HappenSubscribed(Live(maxResync, start + after[..n]), after[n], join.u, join.r, from);
    }
  }

  /** From joining until it is closed, a subscription starts where its client asked, the trip has a room, it is the one joined,
      and the subscription is among its members: every broadcast is meant for it. */
  lemma {:induction false} MemberUntilClosed(maxResync: nat, before: seq<Event>, join: D.Action, after: seq<Event>)
    requires JoinedSince(before, join, after, maxResync)
    ensures var h := Live(maxResync, before + [Deliver(join)] + after).hub;
      && join.u in h.subs && !h.subs[join.u].closed
      && h.subs[join.u].from == (if join.since.Some? then join.since.value else join.head)
      && h.current == Some(join.r) && join.r in h.rooms && join.u in h.rooms[join.r].members
  {
    var events := before + [Deliver(join)] + after;
    StaysSubscribed(maxResync, before, join, after);
    EveryEvent(maxResync, events);
    M.SubscribedIsMember(Live(maxResync, events).hub, join.u, join.r, if join.since.Some? then join.since.value else join.head);
  }

  /** Once its replay has returned without an error, a clean subscriber that has not been closed is never behind its room: it
      has counted every operation the room has broadcast. */
  lemma NeverBehindItsRoom(maxResync: nat, events: seq<Event>, u: D.SubId, s: D.Sub)
    requires u in Live(maxResync, events).hub.subs && s == Live(maxResync, events).hub.subs[u]
    requires s.clean && s.replay == D.Ended(true) && !s.closed
    ensures var t := Live(maxResync, events);
      var log := t.world.db.log;
      && t.hub.current == Some(s.room) && s.room in t.hub.rooms && u in t.hub.rooms[s.room].members
      && D.RoomSound(log, t.hub.rooms[s.room])
      && Fold(log).Ok? && s.from <= |log|
      && ClientOf(log, s).replica.seqno + 1 >= t.hub.rooms[s.room].next
  {
    EveryEvent(maxResync, events);
    var t := Live(maxResync, events);
    SubscriberTracks(t, u, s);
    assert M.InPlace(t.hub, s, u);
    assert D.SubSound(t.hub.log, s) && D.Linked(t.hub.rooms[s.room], u, s) && D.RoomSound(t.hub.log, t.hub.rooms[s.room]);
  }

  /** The room invariant in every reachable state. */
  lemma EveryRoomIsOrdered(maxResync: nat, events: seq<Event>, r: D.RoomId)
    requires r in Live(maxResync, events).hub.rooms
    ensures var t := Live(maxResync, events); D.RoomSound(t.world.db.log, t.hub.rooms[r])
  {
    EveryEvent(maxResync, events);
  }
}
