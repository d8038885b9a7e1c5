/** Catching up: a log that goes quiet reaches every subscriber that can be served. The replay ends, the rooms' reconciliations
    find what broadcasts lost, and the subscriber has counted the whole log, whatever the other subscribers answer
    (internal/syncengine engine.go replayFrom, room.go reconcile). */
module CatchUp {
  import opened Outcomes
  import opened Domain
  import opened Delivery
  import opened DeliverySafety
  import opened Membership
  import opened Turns
  import opened Rooms

  // ----- what a turn leaves of a subscriber -----

  /** A subscriber past its replay, with nothing refused and nothing closed. */
  predicate Listening(h: Hub, u: SubId) {
    u in h.subs && h.subs[u].clean && !h.subs[u].closed && h.subs[u].replay == Ended(true)
  }

  ghost predicate Willing(accepts: (SubId, Op) -> bool, u: SubId) {
    forall op :: accepts(u, op)
  }

  lemma OfferedListens(log: seq<Op>, s: Sub, op: Op)
    requires SubSound(log, s) && s.replay == Ended(true)
    ensures var t := Offer(s, op, true); t == s.(got := t.got, count := t.count, sawGap := t.sawGap, offered := t.offered)
  {
  }

  lemma StepLeaves(h: Hub, a: Action, u: SubId, accepts: (SubId, Op) -> bool)
    requires Inv(h) && Enabled(h, a) && Answers(a, false, accepts) && Listening(h, u) && Willing(accepts, u)
    ensures var h' := Take(h, a); Listening(h', u) && h'.subs[u].room == h.subs[u].room && h'.subs[u].from == h.subs[u].from
    ensures Take(h, a).log == h.log
  {
    if a.Send? && a.u == u {
      assert a.accepts;
      assert SubSound(h.log, h.subs[u]);
      OfferedListens(h.log, h.subs[u], h.rooms[a.r].mode.op);
    }
  }

  /** However the others answer, a listening subscriber that accepts what it is offered goes on listening. */
  lemma {:induction false} RunLeaves(h: Hub, actions: seq<Action>, u: SubId, accepts: (SubId, Op) -> bool)
    requires Inv(h) && Runs(h, actions) && Answered(actions, false, accepts) && Listening(h, u) && Willing(accepts, u)
    ensures Inv(Ran(h, actions)) && Ran(h, actions).log == h.log
    ensures var h' := Ran(h, actions); Listening(h', u) && h'.subs[u].room == h.subs[u].room && h'.subs[u].from == h.subs[u].from
  {
    if actions != [] {
      var n := |actions| - 1;
      RunLeaves(h, actions[..n], u, accepts);
      StepLeaves(Ran(h, actions[..n]), actions[n], u, accepts);
      TakeKeeps(Ran(h, actions[..n]), actions[n]);
    }
  }

  lemma {:induction false} RunPlaces(h: Hub, actions: seq<Action>)
    requires Placed(h) && Runs(h, actions)
    ensures Placed(Ran(h, actions))
  {
    if actions != [] {
      var n := |actions| - 1;
      RunPlaces(h, actions[..n]);
      TakePlaces(Ran(h, actions[..n]), actions[n]);
    }
  }

  // ----- the room -----

  lemma SettlesFurther(log: seq<Op>, room: Room)
    requires Numbered(log) && RoomSound(log, room) && room.mode.Draining?
    ensures Settled(room).mode.Idle? && Settled(room).next >= room.next
  {
    SettledSound(log, room);
    SettledIs(room);
    FirstMissingSpec(room.next, room.pending);
  }

  /** A room in the middle of a turn finishes it. */
  lemma {:induction false} FinishTurn(h: Hub, r: RoomId, accepts: (SubId, Op) -> bool) returns (actions: seq<Action>)
    requires Inv(h) && r in h.rooms
    ensures Runs(h, actions) && Inv(Ran(h, actions)) && TurnsIn(actions) == 0 && Answered(actions, false, accepts)
    ensures var h' := Ran(h, actions);
      h'.log == h.log && r in h'.rooms && h'.rooms[r].mode.Idle? && h'.rooms[r].next >= h.rooms[r].next
  {
    actions := [];
    if h.rooms[r].mode.Sending? {
      actions := BroadcastIsARun(h, r, accepts);
    }
    var h1 := Ran(h, actions);
    if h1.rooms[r].mode.Draining? {
      assert RoomSound(h1.log, h1.rooms[r]);
      SettlesFurther(h1.log, h1.rooms[r]);
      var rest := DrainIsARun(h1, r, accepts);
      RunInTurn(h, actions, rest);
      TurnsAdd(actions, rest);
      AnsweredAdds(actions, rest, false, accepts);
      actions := actions + rest;
    }
  }

  /** From whatever point it is at, a room of a quiet log has broadcast it all after one reconciliation for each page it was
      behind. */
  lemma {:induction false} RoomCatchesUp(h: Hub, r: RoomId, turns: nat, accepts: (SubId, Op) -> bool) returns (actions: seq<Action>)
    requires Inv(h) && r in h.rooms && turns * PAGE >= |h.log| + 1 - h.rooms[r].next
    ensures Runs(h, actions) && TurnsIn(actions) == turns && Answered(actions, false, accepts)
    ensures var h' := Ran(h, actions);
      h'.log == h.log && r in h'.rooms && h'.rooms[r].mode.Idle? && h'.rooms[r].next == |h.log| + 1
  {
    var first := FinishTurn(h, r, accepts);
    var rest := QuietRoomCatchesUp(Ran(h, first), r, turns, accepts);
    actions := AnsweredInTurn(h, first, rest, 0, turns, accepts);
  }

  lemma {:induction false} AnsweredInTurn(h: Hub, x: seq<Action>, y: seq<Action>, m: nat, n: nat, accepts: (SubId, Op) -> bool)
      returns (actions: seq<Action>)
    requires Runs(h, x) && TurnsIn(x) == m && Answered(x, false, accepts)
    requires Runs(Ran(h, x), y) && TurnsIn(y) == n && Answered(y, false, accepts)
    ensures Runs(h, actions) && TurnsIn(actions) == m + n && Answered(actions, false, accepts)
    ensures Ran(h, actions) == Ran(Ran(h, x), y)
  {
    RunInTurn(h, x, y);
    TurnsAdd(x, y);
    AnsweredAdds(x, y, false, accepts);
    actions := x + y;
  }

  /** A listening subscriber of an idle room that has broadcast the whole log has counted it. */
  lemma CountedAll(h: Hub, u: SubId)
    requires Inv(h) && Placed(h) && Listening(h, u)
    requires var r := h.subs[u].room; r in h.rooms ==> h.rooms[r].mode.Idle? && h.rooms[r].next == |h.log| + 1
    ensures h.subs[u].count == |h.log|
  {
    var s := h.subs[u];
    assert InPlace(h, s, u) && SubSound(h.log, s) && Linked(h.rooms[s.room], u, s);
  }

  /** A listening subscriber that accepts what it is offered has counted a quiet log after one reconciliation of its room for
      each page that was behind. */
  lemma {:induction false} ListenerCatchesUp(h: Hub, u: SubId, turns: nat, accepts: (SubId, Op) -> bool)
      returns (actions: seq<Action>)
    requires Inv(h) && Placed(h) && Listening(h, u) && Willing(accepts, u)
    requires turns * PAGE >= |h.log|
    ensures Runs(h, actions) && TurnsIn(actions) == turns && Answered(actions, false, accepts)
    ensures var h' := Ran(h, actions); Listening(h', u) && h'.log == h.log && h'.subs[u].count == |h.log|
  {
    var r := h.subs[u].room;
    assert InPlace(h, h.subs[u], u);
    assert RoomSound(h.log, h.rooms[r]);
    actions := RoomCatchesUp(h, r, turns, accepts);
    RunLeaves(h, actions, u, accepts);
    RunPlaces(h, actions);
    CountedAll(Ran(h, actions), u);
  }

  // ----- the replay -----

  /** A step of one subscriber's replay in which every read succeeds and every operation is accepted. */
  predicate Replays(a: Action, u: SubId) {
    match a
    case StartReplay(v) => v == u
    case Fetch(v, ok) => v == u && ok
    case Stream(v, ok) => v == u && ok
    case EndPage(v) => v == u
    case OpenGate(v, _) => v == u
    case _ => false
  }

  predicate AllReplay(actions: seq<Action>, u: SubId) {
    forall i :: 0 <= i < |actions| ==> Replays(actions[i], u)
  }

  /** What the log still holds for a replay fits what it may deliver. */
  predicate Fits(log: seq<Op>, cursor: nat, delivered: nat, maxResync: nat) {
    cursor <= |log| && delivered + (|log| - cursor) <= maxResync
  }

  function Replaced(h: Hub, u: SubId, s: Sub): Hub {
    h.(subs := h.subs[u := s])
  }

  /** The same subscription further on: its gate closed and untouched, nothing refused. */
  predicate Onwards(s: Sub, t: Sub) {
    t.room == s.room && t.from == s.from && t.closed == s.closed && t.clean == s.clean
    && t.open == s.open && t.buffer == s.buffer
  }

  /** One step before a run of one subscriber. */
  lemma {:induction false} Precede(h: Hub, u: SubId, a: Action, s: Sub, rest: seq<Action>, t: Sub)
    requires u in h.subs && Enabled(h, a) && Replays(a, u) && Take(h, a) == Replaced(h, u, s)
    requires Runs(Replaced(h, u, s), rest) && Ran(Replaced(h, u, s), rest) == Replaced(h, u, t) && AllReplay(rest, u)
    ensures Runs(h, [a] + rest) && Ran(h, [a] + rest) == Replaced(h, u, t) && AllReplay([a] + rest, u)
  {
    RunFirst(h, a, rest);
  }

  lemma StreamOne(h: Hub, u: SubId, s: Sub, cursor: nat, rest: seq<Op>, short: bool, delivered: nat)
    requires u in h.subs && h.subs[u] == s && s.replay == Streaming(cursor, rest, short, delivered) && rest != []
    requires rest[0].seqno == cursor + 1 && delivered < h.maxResync
    ensures Enabled(h, Stream(u, true))
    ensures var t := Take(h, Stream(u, true)).subs[u];
      && Take(h, Stream(u, true)) == Replaced(h, u, t) && Onwards(s, t)
      && t.replay == Streaming(cursor + 1, rest[1..], short, delivered + 1)
  {
  }

  /** The rest of a page is streamed. */
  lemma {:induction false} PageStreams(h: Hub, u: SubId, s: Sub, cursor: nat, rest: seq<Op>, short: bool, delivered: nat)
      returns (actions: seq<Action>, t: Sub)
    requires u in h.subs && h.subs[u] == s && s.replay == Streaming(cursor, rest, short, delivered)
    requires forall i :: 0 <= i < |rest| ==> rest[i].seqno == cursor + i + 1
    requires delivered + |rest| <= h.maxResync
    ensures Runs(h, actions) && Ran(h, actions) == Replaced(h, u, t) && AllReplay(actions, u)
    ensures Onwards(s, t) && t.replay == Streaming(cursor + |rest|, [], short, delivered + |rest|)
    decreases |rest|
  {
    if rest == [] {
      actions, t := [], s;
      assert h == Replaced(h, u, s);
    } else {
      StreamOne(h, u, s, cursor, rest, short, delivered);
      var s1 := Take(h, Stream(u, true)).subs[u];
      var more;
      more, t := PageStreams(Replaced(h, u, s1), u, s1, cursor + 1, rest[1..], short, delivered + 1);
      assert Replaced(Replaced(h, u, s1), u, t) == Replaced(h, u, t);
      Precede(h, u, Stream(u, true), s1, more, t);
      actions := [Stream(u, true)] + more;
    }
  }

  lemma FetchOne(h: Hub, u: SubId, s: Sub, cursor: nat, delivered: nat)
    requires u in h.subs && h.subs[u] == s && s.replay == Fetching(cursor, delivered)
    ensures Enabled(h, Fetch(u, true))
    ensures var page := ListSince(h.log, cursor);
      Take(h, Fetch(u, true)) == Replaced(h, u, s.(replay := Streaming(cursor, page, |page| < PAGE, delivered)))
  {
  }

  lemma EndOne(h: Hub, u: SubId, s: Sub)
    requires u in h.subs && h.subs[u] == s && s.replay.Streaming? && s.replay.rest == []
    ensures Enabled(h, EndPage(u))
    ensures Take(h, EndPage(u)) == Replaced(h, u, s.(replay := if s.replay.short then Releasing(true)
                                                            else Fetching(s.replay.cursor, s.replay.delivered)))
  {
  }

  /** One read of the replay, its page, and the end of it. */
  lemma {:induction false} PageReplays(h: Hub, u: SubId, s: Sub, cursor: nat, delivered: nat)
      returns (actions: seq<Action>, t: Sub)
    requires u in h.subs && h.subs[u] == s && s.replay == Fetching(cursor, delivered)
    requires Numbered(h.log) && Fits(h.log, cursor, delivered, h.maxResync)
    ensures Runs(h, actions) && Ran(h, actions) == Replaced(h, u, t) && AllReplay(actions, u) && Onwards(s, t)
    ensures t.replay == if cursor + PAGE <= |h.log| then Fetching(cursor + PAGE, delivered + PAGE) else Releasing(true)
  {
    var page := ListSince(h.log, cursor);
    PageInLog(h.log, cursor);
    FetchOne(h, u, s, cursor, delivered);
    var s1 := s.(replay := Streaming(cursor, page, |page| < PAGE, delivered));
    var h1 := Replaced(h, u, s1);
    var stream, s2 := PageStreams(h1, u, s1, cursor, page, |page| < PAGE, delivered);
    var h2 := Replaced(h1, u, s2);
    EndOne(h2, u, s2);
    t := s2.(replay := if s2.replay.short then Releasing(true) else Fetching(s2.replay.cursor, s2.replay.delivered));
    actions := PageEnds(h1, u, stream, s2, t);
    assert Replaced(h1, u, t) == Replaced(h, u, t);
    Precede(h, u, Fetch(u, true), s1, actions, t);
    actions := [Fetch(u, true)] + actions;
  }

  lemma {:induction false} PageEnds(h: Hub, u: SubId, stream: seq<Action>, s: Sub, t: Sub) returns (actions: seq<Action>)
    requires u in h.subs && Runs(h, stream) && Ran(h, stream) == Replaced(h, u, s) && AllReplay(stream, u)
    requires Enabled(Replaced(h, u, s), EndPage(u)) && Take(Replaced(h, u, s), EndPage(u)) == Replaced(Replaced(h, u, s), u, t)
    ensures Runs(h, actions) && Ran(h, actions) == Replaced(h, u, t) && AllReplay(actions, u)
  {
    RunOn(h, stream, EndPage(u));
    actions := stream + [EndPage(u)];
    assert Replaced(Replaced(h, u, s), u, t) == Replaced(h, u, t);
  }

  /** Page after page, to the end of the log. */
  lemma {:induction false} PagesReplay(h: Hub, u: SubId, s: Sub, cursor: nat, delivered: nat)
      returns (actions: seq<Action>, t: Sub)
    requires u in h.subs && h.subs[u] == s && s.replay == Fetching(cursor, delivered)
    requires Numbered(h.log) && Fits(h.log, cursor, delivered, h.maxResync)
    ensures Runs(h, actions) && Ran(h, actions) == Replaced(h, u, t) && AllReplay(actions, u) && Onwards(s, t)
    ensures t.replay == Releasing(true)
    decreases |h.log| - cursor
  {
    actions, t := PageReplays(h, u, s, cursor, delivered);
    if cursor + PAGE <= |h.log| {
      var h1 := Replaced(h, u, t);
      var rest, last := PagesReplay(h1, u, t, cursor + PAGE, delivered + PAGE);
      assert Replaced(h1, u, last) == Replaced(h, u, last);
      RunInTurn(h, actions, rest);
      actions, t := actions + rest, last;
    }
  }

  lemma {:induction false} FlushedClean(s: Sub, ops: seq<Op>, accepts: nat -> bool)
    requires forall i :: accepts(i)
    ensures Flush(s, ops, accepts).clean == s.clean
  {
    if ops != [] {
      FlushedClean(s, ops[..|ops| - 1], accepts);
    }
  }

  lemma GateOpens(h: Hub, u: SubId, s: Sub)
    requires u in h.subs && h.subs[u] == s && s.replay == Releasing(true)
    ensures var a := OpenGate(u, (i: nat) => true);
      && Enabled(h, a)
      && var t := Take(h, a).subs[u];
         && Take(h, a) == Replaced(h, u, t)
         && t.clean == s.clean && t.closed == s.closed && t.room == s.room && t.from == s.from && t.replay == Ended(true)
  {
    FlushedClean(s, s.buffer, (i: nat) => true);
    FlushKeepsPlace(s, s.buffer, (i: nat) => true);
  }

  /** A replay that has what it may deliver to go, reads what it asks for and is accepted, ends without an error: the
      subscriber is listening. */
  lemma {:induction false} ReplayIsARun(h: Hub, u: SubId) returns (actions: seq<Action>)
    requires Inv(h) && u in h.subs && h.subs[u].clean && !h.subs[u].closed && h.subs[u].replay.Unstarted?
    requires |h.log| - h.subs[u].from <= h.maxResync
    ensures Runs(h, actions) && AllReplay(actions, u)
    ensures var h' := Ran(h, actions);
      && Listening(h', u) && h' == Replaced(h, u, h'.subs[u])
      && h'.subs[u].room == h.subs[u].room && h'.subs[u].from == h.subs[u].from
  {
    var s := h.subs[u];
    assert SubSound(h.log, s);
    var s1 := s.(replay := Fetching(s.from, 0));
    var h1 := Replaced(h, u, s1);
    var pages, s2 := PagesReplay(h1, u, s1, s.from, 0);
    assert Replaced(h1, u, s2) == Replaced(h, u, s2);
    Precede(h, u, StartReplay(u), s1, pages, s2);
    actions := Released(h, u, [StartReplay(u)] + pages, s2);
  }

  lemma {:induction false} Released(h: Hub, u: SubId, before: seq<Action>, s: Sub) returns (actions: seq<Action>)
    requires u in h.subs && Runs(h, before) && Ran(h, before) == Replaced(h, u, s) && AllReplay(before, u)
    requires s.replay == Releasing(true)
    ensures Runs(h, actions) && AllReplay(actions, u)
    ensures var h' := Ran(h, actions);
      && u in h'.subs && h' == Replaced(h, u, h'.subs[u])
      && var t := h'.subs[u];
         t.clean == s.clean && t.closed == s.closed && t.room == s.room && t.from == s.from && t.replay == Ended(true)
  {
    var h1, open := Replaced(h, u, s), OpenGate(u, (i: nat) => true);
    GateOpens(h1, u, s);
    RunOn(h, before, open);
    actions := before + [open];
    var t := Take(h1, open).subs[u];
    assert Replaced(h1, u, t) == Replaced(h, u, t);
  }
}
