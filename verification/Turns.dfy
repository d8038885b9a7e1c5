/** Runs of delivery steps: the whole turn a room's dispatcher makes of one arrival, one tick of its gap timer or one
    reconciliation, and two runs that show why a gap cannot be excluded after a refusal or a failed replay. */
module Turns {
  import opened Outcomes
  import opened Domain
  import opened Delivery
  import opened DeliverySafety

  // ----- runs -----

  predicate Runs(h: Hub, actions: seq<Action>)
    decreases |actions|, 0
  {
    actions == []
    || (Runs(h, actions[..|actions| - 1]) && Enabled(Ran(h, actions[..|actions| - 1]), actions[|actions| - 1]))
  }

  function Ran(h: Hub, actions: seq<Action>): Hub
    requires Runs(h, actions)
    decreases |actions|, 1
  {
    if actions == [] then h else Take(Ran(h, actions[..|actions| - 1]), actions[|actions| - 1])
  }

  lemma {:induction false} RunOn(h: Hub, actions: seq<Action>, a: Action)
    requires Runs(h, actions) && Enabled(Ran(h, actions), a)
    ensures Runs(h, actions + [a]) && Ran(h, actions + [a]) == Take(Ran(h, actions), a)
  {
    assert (actions + [a])[..|actions|] == actions;
  }

  lemma {:induction false} RunInTurn(h: Hub, x: seq<Action>, y: seq<Action>)
    requires Runs(h, x) && Runs(Ran(h, x), y)
    ensures Runs(h, x + y) && Ran(h, x + y) == Ran(Ran(h, x), y)
  {
    if y == [] {
      assert x + y == x;
    } else {
      var n := |y| - 1;
      RunInTurn(h, x, y[..n]);
      RunOn(h, x + y[..n], y[n]);
      assert x + y == (x + y[..n]) + [y[n]];
    }
  }

  lemma {:induction false} RunFirst(h: Hub, a: Action, rest: seq<Action>)
    requires Enabled(h, a) && Runs(Take(h, a), rest)
    ensures Runs(h, [a] + rest) && Ran(h, [a] + rest) == Ran(Take(h, a), rest)
  {
    assert [] + [a] == [a];
    RunOn(h, [], a);
    RunInTurn(h, [a], rest);
  }

  lemma {:induction false} RunKeeps(h: Hub, actions: seq<Action>)
    requires Inv(h) && Runs(h, actions)
    ensures Inv(Ran(h, actions))
  {
    if actions != [] {
      var n := |actions| - 1;
      RunKeeps(h, actions[..n]);
      TakeKeeps(Ran(h, actions[..n]), actions[n]);
    }
  }

  // ----- what is contiguous -----

  /** The first number from next on that is not held. */
  function FirstMissing(next: nat, pending: map<nat, Op>): nat
    decreases |pending.Keys|
  {
    if next in pending.Keys then
      assert (pending - {next}).Keys == pending.Keys - {next};
      FirstMissing(next + 1, pending - {next})
    else next
  }

  lemma {:induction false} FirstMissingIs(next: nat, pending: map<nat, Op>, n: nat)
    requires next <= n && n !in pending && forall k :: next <= k < n ==> k in pending
    ensures FirstMissing(next, pending) == n
    decreases n - next
  {
    if next < n {
      FirstMissingIs(next + 1, pending - {next}, n);
    }
  }

  lemma {:induction false} FirstMissingSpec(next: nat, pending: map<nat, Op>)
    ensures var n := FirstMissing(next, pending);
      next <= n && n !in pending && forall k :: next <= k < n ==> k in pending
    decreases |pending.Keys|
  {
    if next in pending.Keys {
      var rest := pending - {next};
      assert rest.Keys == pending.Keys - {next};
      FirstMissingSpec(next + 1, rest);
      var n := FirstMissing(next + 1, rest);
      assert n in pending.Keys ==> n in rest.Keys;
      forall k | next <= k < n ensures k in pending {
        assert k == next || k in rest.Keys;
      }
    }
  }

  /** p holds what q holds from n on. */
  ghost predicate HoldsFrom(p: map<nat, Op>, q: map<nat, Op>, n: nat) {
    forall k :: k in p <==> k in q && k >= n
  }

  // ----- a turn of the dispatcher -----

  /** A room that has been sent to by everyone it owed the operation. */
  function AllSent(room: Room): Room
    requires room.mode.Sending?
  {
    room.(mode := room.mode.(targets := {}))
  }

  /** A draining room once its drain is over: everything contiguous broadcast to all its subscribers. */
  function Settled(room: Room): Room
    requires room.mode.Draining?
    decreases |room.pending.Keys|
  {
    var d := Drained(room);
    if d.mode.Sending? then
      assert d.pending.Keys == room.pending.Keys - {room.next};
      Settled(Finished(AllSent(d)))
    else d
  }

  lemma {:induction false} SettledSound(log: seq<Op>, room: Room)
    requires Numbered(log) && RoomSound(log, room) && room.mode.Draining?
    ensures RoomSound(log, Settled(room)) && Settled(room).mode.Idle?
    ensures Settled(room).head == room.head && Settled(room).members == room.members
    decreases |room.pending.Keys|
  {
    var d := Drained(room);
    DrainedSound(log, room);
    if d.mode.Sending? {
      assert d.pending.Keys == room.pending.Keys - {room.next};
      assert RoomSound(log, AllSent(d));
      RoomFinishes(log, AllSent(d));
      SettledSound(log, Finished(AllSent(d)));
    }
  }

  /** A turn broadcasts up to the first operation the room does not hold, holds on to the rest, and settles the timer. */
  lemma {:induction false} SettledIs(room: Room)
    requires room.mode.Draining? && forall k :: k in room.pending ==> k >= room.next
    ensures var s := Settled(room);
      && s.next == FirstMissing(room.next, room.pending)
      && HoldsFrom(s.pending, room.pending, s.next)
      && s.armed == (s.pending != map[] || (!room.mode.disarms && room.armed))
    decreases |room.pending.Keys|
  {
    var d := Drained(room);
    if d.mode.Sending? {
      assert d.pending.Keys == room.pending.Keys - {room.next};
      var f := Finished(AllSent(d));
      SettledIs(f);
      FirstMissingSpec(f.next, f.pending);
      forall k ensures k in Settled(room).pending <==> k in room.pending && k >= Settled(room).next {
        assert k in f.pending <==> k in room.pending.Keys && k != room.next;
      }
    }
  }

  /** The dispatcher takes an operation in, hears its gap timer, or reconciles. */
  predicate StartsTurn(a: Action) {
    a.Receive? || a.GapTimer? || a.Reconcile?
  }

  /** How many turns begin in a run. */
  function TurnsIn(actions: seq<Action>): nat {
    if actions == [] then 0
    else TurnsIn(actions[..|actions| - 1]) + if StartsTurn(actions[|actions| - 1]) then 1 else 0
  }

  lemma {:induction false} TurnsAdd(x: seq<Action>, y: seq<Action>)
    ensures TurnsIn(x + y) == TurnsIn(x) + TurnsIn(y)
    ensures |y| == 1 ==> TurnsIn(y) == if StartsTurn(y[0]) then 1 else 0
    ensures |x| == 1 ==> TurnsIn(x) == if StartsTurn(x[0]) then 1 else 0
  {
    if y == [] {
      assert x + y == x;
    } else {
      var n := |y| - 1;
      TurnsAdd(x, y[..n]);
      assert (x + y)[..|x| + n] == x + y[..n];
    }
  }

  /** A step of a turn: the dispatcher's own, or an offer that a subscriber answers as accepts says. Only with news does it
      take an operation off its inbox. */
  ghost predicate Answers(a: Action, news: bool, accepts: (SubId, Op) -> bool) {
    match a
    case Receive(_, _) => news
    case GapTimer(_, _) => true
    case Reconcile(_) => true
    case Drain(_) => true
    case Sent(_) => true
    case Send(_, u, ok) => exists op :: ok == accepts(u, op)
    case _ => false
  }

  ghost predicate Answered(actions: seq<Action>, news: bool, accepts: (SubId, Op) -> bool) {
    forall i :: 0 <= i < |actions| ==> Answers(actions[i], news, accepts)
  }

  lemma AnsweredAdds(x: seq<Action>, y: seq<Action>, news: bool, accepts: (SubId, Op) -> bool)
    requires Answered(x, news, accepts) && Answered(y, news, accepts)
    ensures Answered(x + y, news, accepts)
  {
  }

  lemma AnsweredAnyway(actions: seq<Action>, news: bool, accepts: (SubId, Op) -> bool)
    requires Answered(actions, false, accepts)
    ensures Answered(actions, news, accepts)
  {
  }

  lemma {:induction false} SendOne(h: Hub, r: RoomId, u: SubId, accepts: bool)
    requires Inv(h) && r in h.rooms && h.rooms[r].mode.Sending? && u in h.rooms[r].mode.targets
    ensures Enabled(h, Send(r, u, accepts)) && Inv(Take(h, Send(r, u, accepts)))
    ensures var h' := Take(h, Send(r, u, accepts)); h'.log == h.log && h'.rooms == h.rooms[r := SentTo(h.rooms[r], u)]
  {
    assert MembersKnown(h, r, h.rooms[r]);
    TakeKeeps(h, Send(r, u, accepts));
  }

  lemma {:induction false} SendToAll(h: Hub, r: RoomId, accepts: (SubId, Op) -> bool) returns (actions: seq<Action>)
    requires Inv(h) && r in h.rooms && h.rooms[r].mode.Sending?
    ensures TurnsIn(actions) == 0 && Answered(actions, false, accepts)
    ensures Runs(h, actions) && Inv(Ran(h, actions))
    ensures var h' := Ran(h, actions); h'.log == h.log && h'.rooms == h.rooms[r := AllSent(h.rooms[r])]
    decreases |Targets(h.rooms[r])|
  {
    actions := [];
    var room := h.rooms[r];
    if room.mode.targets == {} {
      assert h.rooms == h.rooms[r := AllSent(room)];
    } else {
      var u :| u in room.mode.targets;
      SendOne(h, r, u, accepts(u, room.mode.op));
      var rest := SendToAll(Take(h, Send(r, u, accepts(u, room.mode.op))), r, accepts);
      actions := SendFirst(h, r, u, accepts, rest);
    }
  }

  lemma {:induction false} SendFirst(h: Hub, r: RoomId, u: SubId, accepts: (SubId, Op) -> bool, rest: seq<Action>)
      returns (actions: seq<Action>)
    requires r in h.rooms && h.rooms[r].mode.Sending?
    requires var a := Send(r, u, accepts(u, h.rooms[r].mode.op));
      && Enabled(h, a) && Take(h, a).log == h.log && Take(h, a).rooms == h.rooms[r := SentTo(h.rooms[r], u)]
      && Runs(Take(h, a), rest) && Inv(Ran(Take(h, a), rest)) && Ran(Take(h, a), rest).log == h.log
      && Ran(Take(h, a), rest).rooms == Take(h, a).rooms[r := AllSent(h.rooms[r])]
    requires TurnsIn(rest) == 0 && Answered(rest, false, accepts)
    ensures TurnsIn(actions) == 0 && Answered(actions, false, accepts)
    ensures Runs(h, actions) && Inv(Ran(h, actions))
    ensures var h' := Ran(h, actions); h'.log == h.log && h'.rooms == h.rooms[r := AllSent(h.rooms[r])]
  {
    var a := Send(r, u, accepts(u, h.rooms[r].mode.op));
    Prefixed(h, a, rest, r, SentTo(h.rooms[r], u), AllSent(h.rooms[r]));
    TurnsAdd([a], rest);
    assert Answers(a, false, accepts);
    AnsweredAdds([a], rest, false, accepts);
    actions := [a] + rest;
  }

  /** A step that leaves one room as mid, before a run that leaves it as last. */
  lemma {:induction false} Prefixed(h: Hub, a: Action, rest: seq<Action>, r: RoomId, mid: Room, last: Room)
    requires Enabled(h, a) && Take(h, a).log == h.log && Take(h, a).rooms == h.rooms[r := mid]
    requires Runs(Take(h, a), rest) && Inv(Ran(Take(h, a), rest))
    requires var h' := Ran(Take(h, a), rest); h'.log == h.log && h'.rooms == h.rooms[r := mid][r := last]
    ensures Runs(h, [a] + rest) && Inv(Ran(h, [a] + rest))
    ensures var h' := Ran(h, [a] + rest); h'.log == h.log && h'.rooms == h.rooms[r := last]
  {
    RunFirst(h, a, rest);
  }

  lemma {:induction false} DrainOnce(h: Hub, r: RoomId)
    requires Inv(h) && r in h.rooms && h.rooms[r].mode.Draining?
    ensures Enabled(h, Drain(r)) && Inv(Take(h, Drain(r)))
    ensures var h' := Take(h, Drain(r)); h'.log == h.log && h'.rooms == h.rooms[r := Drained(h.rooms[r])]
  {
    TakeKeeps(h, Drain(r));
  }

  lemma {:induction false} FinishOnce(h: Hub, r: RoomId)
    requires Inv(h) && r in h.rooms && h.rooms[r].mode.Sending? && h.rooms[r].mode.targets == {}
    ensures Enabled(h, Sent(r)) && Inv(Take(h, Sent(r)))
    ensures var h' := Take(h, Sent(r)); h'.log == h.log && h'.rooms == h.rooms[r := Finished(h.rooms[r])]
  {
    TakeKeeps(h, Sent(r));
  }

  /** Broadcasting the operation that is due: to each subscriber in turn, and on to the next. */
  lemma {:induction false} BroadcastIsARun(h: Hub, r: RoomId, accepts: (SubId, Op) -> bool) returns (actions: seq<Action>)
    requires Inv(h) && r in h.rooms && h.rooms[r].mode.Sending?
    ensures TurnsIn(actions) == 0 && Answered(actions, false, accepts)
    ensures Runs(h, actions) && Inv(Ran(h, actions))
    ensures var h' := Ran(h, actions); h'.log == h.log && h'.rooms == h.rooms[r := Finished(AllSent(h.rooms[r]))]
  {
    var sends := SendToAll(h, r, accepts);
    FinishOnce(Ran(h, sends), r);
    RunOn(h, sends, Sent(r));
    actions := sends + [Sent(r)];
    TurnsAdd(sends, [Sent(r)]);
    AnsweredAdds(sends, [Sent(r)], false, accepts);
  }

  lemma {:induction false} Chained(h: Hub, x: seq<Action>, y: seq<Action>, r: RoomId, mid: Room, last: Room)
    requires Runs(h, x) && Ran(h, x).log == h.log && Ran(h, x).rooms == h.rooms[r := mid]
    requires Runs(Ran(h, x), y) && Inv(Ran(Ran(h, x), y))
    requires var h' := Ran(Ran(h, x), y); h'.log == h.log && h'.rooms == Ran(h, x).rooms[r := last]
    ensures Runs(h, x + y) && Inv(Ran(h, x + y))
    ensures var h' := Ran(h, x + y); h'.log == h.log && h'.rooms == h.rooms[r := last]
  {
    RunInTurn(h, x, y);
  }

  /** A turn of the drain's loop holds one operation less, and leaves the rest of the drain. */
  lemma OneFewer(room: Room)
    requires room.mode.Draining? && Drained(room).mode.Sending?
    ensures Settled(Finished(AllSent(Drained(room)))) == Settled(room)
    ensures |Finished(AllSent(Drained(room))).pending.Keys| < |room.pending.Keys|
  {
    assert Drained(room).pending.Keys == room.pending.Keys - {room.next};
  }

  /** A drain is a run of delivery steps, with every subscriber offered every operation and answering as it likes. */
  lemma {:induction false} DrainIsARun(h: Hub, r: RoomId, accepts: (SubId, Op) -> bool) returns (actions: seq<Action>)
    requires Inv(h) && r in h.rooms && h.rooms[r].mode.Draining?
    ensures TurnsIn(actions) == 0 && Answered(actions, false, accepts)
    ensures Runs(h, actions) && Inv(Ran(h, actions))
    ensures var h' := Ran(h, actions); h'.log == h.log && h'.rooms == h.rooms[r := Settled(h.rooms[r])]
    decreases |h.rooms[r].pending.Keys|
  {
    var room := h.rooms[r];
    var d := Drained(room);
    DrainOnce(h, r);
    var h1 := Take(h, Drain(r));
    if d.mode.Sending? {
      var sends := BroadcastIsARun(h1, r, accepts);
      OneFewer(room);
      var rest := DrainIsARun(Ran(h1, sends), r, accepts);
      actions := OneRound(h, r, sends, rest, d, Finished(AllSent(d)), Settled(room), accepts);
    } else {
      Prefixed(h, Drain(r), [], r, d, d);
      TurnsAdd([Drain(r)], []);
      actions := [Drain(r)] + [];
    }
  }

  /** A round of the drain's loop and what follows it. */
  lemma {:induction false} OneRound(h: Hub, r: RoomId, sends: seq<Action>, rest: seq<Action>, d: Room, mid: Room, last: Room,
                                    accepts: (SubId, Op) -> bool)
      returns (actions: seq<Action>)
    requires Enabled(h, Drain(r)) && TurnsIn(sends) == TurnsIn(rest) == 0
    requires Answered(sends, false, accepts) && Answered(rest, false, accepts)
    requires var h1 := Take(h, Drain(r));
      && h1.log == h.log && h1.rooms == h.rooms[r := d]
      && Runs(h1, sends) && Ran(h1, sends).log == h1.log && Ran(h1, sends).rooms == h1.rooms[r := mid]
      && Runs(Ran(h1, sends), rest) && Inv(Ran(Ran(h1, sends), rest))
      && Ran(Ran(h1, sends), rest).log == h.log && Ran(Ran(h1, sends), rest).rooms == Ran(h1, sends).rooms[r := last]
    ensures TurnsIn(actions) == 0 && Answered(actions, false, accepts)
    ensures Runs(h, actions) && Inv(Ran(h, actions))
    ensures var h' := Ran(h, actions); h'.log == h.log && h'.rooms == h.rooms[r := last]
  {
    Chained(Take(h, Drain(r)), sends, rest, r, mid, last);
    Prefixed(h, Drain(r), sends + rest, r, d, last);
    actions := [Drain(r)] + (sends + rest);
    TurnsAdd(sends, rest);
    TurnsAdd([Drain(r)], sends + rest);
    AnsweredAdds(sends, rest, false, accepts);
    AnsweredAdds([Drain(r)], sends + rest, false, accepts);
  }

  lemma {:induction false} TurnStarts(h: Hub, a: Action)
    requires Inv(h) && Enabled(h, a) && StartsTurn(a)
    ensures a.r in h.rooms && Inv(Take(h, a))
    ensures var h' := Take(h, a);
      h'.log == h.log && h'.rooms == h.rooms[a.r := h'.rooms[a.r]] && h'.rooms[a.r].mode.Draining?
  {
    TakeKeeps(h, a);
  }

  /** A whole turn, until the room is idle again, is a run of delivery steps. */
  lemma {:induction false} TurnIsARun(h: Hub, a: Action, accepts: (SubId, Op) -> bool) returns (actions: seq<Action>)
    requires Inv(h) && Enabled(h, a) && StartsTurn(a)
    ensures actions != [] && actions[0] == a && TurnsIn(actions) == 1 && Runs(h, actions)
    ensures Answered(actions, a.Receive?, accepts)
    ensures var h' := Ran(h, actions);
      Inv(h') && h'.log == h.log && h'.rooms == h.rooms[a.r := Settled(Take(h, a).rooms[a.r])]
  {
    TurnStarts(h, a);
    var mid := Take(h, a).rooms[a.r];
    var rest := DrainIsARun(Take(h, a), a.r, accepts);
    Prefixed(h, a, rest, a.r, mid, Settled(mid));
    TurnsAdd([a], rest);
    AnsweredAnyway(rest, a.Receive?, accepts);
    AnsweredAdds([a], rest, a.Receive?, accepts);
    actions := [a] + rest;
  }

  // ----- two ways to a gap -----

  function NoHub(maxResync: nat): Hub {
    Hub([], maxResync, map[], None, map[])
  }

  lemma NoHubSound(maxResync: nat)
    ensures Inv(NoHub(maxResync))
  {
  }

  lemma {:induction false} Onward(start: Hub, actions: seq<Action>, h: Hub, a: Action, h': Hub)
    requires Runs(start, actions) && Ran(start, actions) == h && Enabled(h, a) && Take(h, a) == h'
    ensures Runs(start, actions + [a]) && Ran(start, actions + [a]) == h'
  {
    RunOn(start, actions, a);
  }

  lemma {:induction false} TwoSteps(start: Hub, a: Action, h: Hub, b: Action, h': Hub) returns (actions: seq<Action>)
    requires Enabled(start, a) && Take(start, a) == h && Enabled(h, b) && Take(h, b) == h'
    ensures Runs(start, actions) && Ran(start, actions) == h'
  {
    Onward(start, [], start, a, h);
    Onward(start, [] + [a], h, b, h');
    actions := [] + [a] + [b];
  }

  /** One room and one subscriber. */
  function Pair(log: seq<Op>, maxResync: nat, room: Room, s: Sub): Hub {
    Hub(log, maxResync, map[0 := room], Some(0), map[0 := s])
  }

  lemma RoomMoves(log: seq<Op>, maxResync: nat, room: Room, s: Sub, a: Action, room': Room)
    requires var h := Pair(log, maxResync, room, s); Enabled(h, a)
    requires match a
      case Receive(r, k) => r == 0 && room' == Received(room, log[k])
      case Drain(r) => r == 0 && room' == Drained(room)
      case Sent(r) => r == 0 && room' == Finished(room)
      case _ => false
    ensures Take(Pair(log, maxResync, room, s), a) == Pair(log, maxResync, room', s)
  {
  }

  lemma SubMoves(log: seq<Op>, maxResync: nat, room: Room, s: Sub, a: Action, s': Sub)
    requires var h := Pair(log, maxResync, room, s); Enabled(h, a)
    requires match a
      case StartReplay(u) => u == 0 && s' == s.(replay := Fetching(s.from, 0))
      case Fetch(u, readOk) =>
        u == 0 && (if readOk then log == [] && s.replay.cursor == 0 && s' == s.(replay := Streaming(0, [], true, s.replay.delivered))
                   else s' == s.(replay := Releasing(false)))
      case EndPage(u) => u == 0 && s.replay.short && s' == s.(replay := Releasing(true))
      case OpenGate(u, verdicts) => u == 0 && s' == Release(s, verdicts)
      case _ => false
    ensures Take(Pair(log, maxResync, room, s), a) == Pair(log, maxResync, room, s')
  {
  }

  lemma SendMoves(log: seq<Op>, maxResync: nat, room: Room, s: Sub, accepts: bool)
    requires room.mode.Sending? && room.mode.targets == {0}
    ensures Enabled(Pair(log, maxResync, room, s), Send(0, 0, accepts))
    ensures Take(Pair(log, maxResync, room, s), Send(0, 0, accepts)) ==
      Pair(log, maxResync, AllSent(room), Offer(s, room.mode.op, accepts))
  {
    assert room.mode.targets - {0} == {};
  }

  lemma GrowMoves(log: seq<Op>, maxResync: nat, room: Room, s: Sub, longer: seq<Op>)
    requires log <= longer && Numbered(longer)
    ensures Enabled(Pair(log, maxResync, room, s), Grow(longer))
    ensures Take(Pair(log, maxResync, room, s), Grow(longer)) == Pair(longer, maxResync, room, s)
  {
  }

  /** A subscriber joins an empty trip and its replay completes. */
  lemma {:induction false} JoinedEarly(maxResync: nat) returns (actions: seq<Action>)
    ensures Runs(NoHub(maxResync), actions)
    ensures Ran(NoHub(maxResync), actions) ==
      Pair([], maxResync, NewRoom(0, 0), Sub(0, 0, true, [], Ended(true), [], 0, false, true, 1, 1, 0, false))
  {
    var h, room, all := NoHub(maxResync), NewRoom(0, 0), (n: nat) => true;
    var s := NewSub(h, 0, 0, 1);
    Onward(h, [], h, Join(0, 0, 0, None), Pair([], maxResync, room, s));
    actions := [] + [Join(0, 0, 0, None)];
    var s1 := s.(replay := Fetching(0, 0));
    SubMoves([], maxResync, room, s, StartReplay(0), s1);
    Onward(h, actions, Pair([], maxResync, room, s), StartReplay(0), Pair([], maxResync, room, s1));
    actions := actions + [StartReplay(0)];
    var s2 := s.(replay := Streaming(0, [], true, 0));
    SubMoves([], maxResync, room, s1, Fetch(0, true), s2);
    Onward(h, actions, Pair([], maxResync, room, s1), Fetch(0, true), Pair([], maxResync, room, s2));
    actions := actions + [Fetch(0, true)];
    var s3 := s.(replay := Releasing(true));
    SubMoves([], maxResync, room, s2, EndPage(0), s3);
    Onward(h, actions, Pair([], maxResync, room, s2), EndPage(0), Pair([], maxResync, room, s3));
    actions := actions + [EndPage(0)];
    var s4 := s.(open := true, replay := Ended(true));
    SubMoves([], maxResync, room, s3, OpenGate(0, all), s4);
    Onward(h, actions, Pair([], maxResync, room, s3), OpenGate(0, all), Pair([], maxResync, room, s4));
    actions := actions + [OpenGate(0, all)];
  }

  /** The next operation of the log arrives at the idle room of one subscriber ... */
  lemma {:induction false} ArrivalTaken(start: Hub, before: seq<Action>, log: seq<Op>, room: Room, s: Sub)
    requires Runs(start, before) && Ran(start, before) == Pair(log, start.maxResync, room, s)
    requires Numbered(log) && 1 <= room.next <= |log| && room.mode.Idle? && room.pending == map[]
    ensures var actions := before + [Receive(0, room.next - 1)];
      && Runs(start, actions)
      && Ran(start, actions) ==
           Pair(log, start.maxResync, room.(pending := map[room.next := log[room.next - 1]], mode := Draining(true)), s)
  {
    var m, k := start.maxResync, room.next - 1;
    var r1 := room.(pending := map[room.next := log[k]], mode := Draining(true));
    RoomMoves(log, m, room, s, Receive(0, k), r1);
    Onward(start, before, Pair(log, m, room, s), Receive(0, k), Pair(log, m, r1, s));
  }

  lemma DueIsSent(room: Room, op: Op)
    requires room.mode.Idle? && room.pending == map[] && room.members == {0}
    ensures Drained(room.(pending := map[room.next := op], mode := Draining(true))) == room.(mode := Sending(op, {0}, true))
  {
    assert map[room.next := op] - {room.next} == map[];
  }

  /** ... and is due. */
  lemma {:induction false} ArrivalDue(start: Hub, before: seq<Action>, log: seq<Op>, room: Room, s: Sub)
      returns (actions: seq<Action>)
    requires Runs(start, before) && Ran(start, before) == Pair(log, start.maxResync, room, s)
    requires Numbered(log) && 1 <= room.next <= |log|
    requires room.mode.Idle? && room.pending == map[] && !room.armed && room.members == {0}
    ensures Runs(start, actions)
    ensures Ran(start, actions) == Pair(log, start.maxResync, room.(mode := Sending(log[room.next - 1], {0}, true)), s)
  {
    var m, op := start.maxResync, log[room.next - 1];
    var r1 := room.(pending := map[room.next := op], mode := Draining(true));
    var r2 := room.(mode := Sending(op, {0}, true));
    ArrivalTaken(start, before, log, room, s);
    DueIsSent(room, op);
    RoomMoves(log, m, r1, s, Drain(0), r2);
    Onward(start, before + [Receive(0, room.next - 1)], Pair(log, m, r1, s), Drain(0), Pair(log, m, r2, s));
    actions := before + [Receive(0, room.next - 1)] + [Drain(0)];
  }

  /** It is offered, and the room is idle again. */
  lemma {:induction false} ArrivalOffered(start: Hub, before: seq<Action>, log: seq<Op>, room: Room, op: Op, s: Sub, accepts: bool)
      returns (actions: seq<Action>)
    requires room.mode == Sending(op, {0}, true) && room.pending == map[] && !room.armed
    requires Runs(start, before) && Ran(start, before) == Pair(log, start.maxResync, room, s)
    ensures Runs(start, actions)
    ensures Ran(start, actions) == Pair(log, start.maxResync,
      room.(next := room.next + 1, sent := room.sent + [op], mode := Idle), Offer(s, op, accepts))
  {
    var m, s' := start.maxResync, Offer(s, op, accepts);
    SendMoves(log, m, room, s, accepts);
    Onward(start, before, Pair(log, m, room, s), Send(0, 0, accepts), Pair(log, m, AllSent(room), s'));
    actions := before + [Send(0, 0, accepts)];
    var r1 := room.(next := room.next + 1, sent := room.sent + [op], mode := Draining(true));
    RoomMoves(log, m, AllSent(room), s', Sent(0), r1);
    Onward(start, actions, Pair(log, m, AllSent(room), s'), Sent(0), Pair(log, m, r1, s'));
    actions := actions + [Sent(0)];
    var r2 := r1.(mode := Idle);
    RoomMoves(log, m, r1, s', Drain(0), r2);
    Onward(start, actions, Pair(log, m, r1, s'), Drain(0), Pair(log, m, r2, s'));
    actions := actions + [Drain(0)];
  }

  lemma {:induction false} OneArrival(start: Hub, before: seq<Action>, log: seq<Op>, room: Room, s: Sub, accepts: bool)
      returns (actions: seq<Action>)
    requires Runs(start, before) && Ran(start, before) == Pair(log, start.maxResync, room, s)
    requires Numbered(log) && 1 <= room.next <= |log|
    requires room.mode.Idle? && room.pending == map[] && !room.armed && room.members == {0}
    ensures Runs(start, actions)
    ensures Ran(start, actions) == Pair(log, start.maxResync,
      room.(next := room.next + 1, sent := room.sent + [log[room.next - 1]]), Offer(s, log[room.next - 1], accepts))
  {
    var op := log[room.next - 1];
    var due := ArrivalDue(start, before, log, room, s);
    actions := ArrivalOffered(start, due, log, room.(mode := Sending(op, {0}, true)), op, s, accepts);
  }

  /** A live subscriber that refuses one operation and accepts the next sees a gap: being closed for the refusal takes
      effect later. Its replay has not failed. */
  lemma {:induction false} RefusalCanLeaveAGap(maxResync: nat, a: Op, b: Op) returns (actions: seq<Action>)
    requires a.seqno == 1 && b.seqno == 2
    ensures Runs(NoHub(maxResync), actions) && Inv(Ran(NoHub(maxResync), actions))
    ensures var h := Ran(NoHub(maxResync), actions);
      0 in h.subs && h.subs[0].sawGap && h.subs[0].got == [b] && h.subs[0].count == 0
      && h.subs[0].replay == Ended(true) && !h.subs[0].clean
  {
    var start, log := NoHub(maxResync), [a, b];
    actions := JoinedEarly(maxResync);
    var room, s := NewRoom(0, 0), Sub(0, 0, true, [], Ended(true), [], 0, false, true, 1, 1, 0, false);
    GrowMoves([], maxResync, room, s, log);
    Onward(start, actions, Pair([], maxResync, room, s), Grow(log), Pair(log, maxResync, room, s));
    actions := actions + [Grow(log)];
    actions := OneArrival(start, actions, log, room, s, false);
    var r1, s1 := room.(next := 2, sent := room.sent + [a]), Offer(s, a, false);
    actions := OneArrival(start, actions, log, r1, s1, true);
    NoHubSound(maxResync);
    RunKeeps(start, actions);
  }

  lemma JoinBehind(h: Hub)
    requires |h.log| == 1 && h.maxResync >= 1 && h.rooms == map[] && h.current.None? && h.subs == map[]
    ensures Enabled(h, Join(0, 0, 1, Some(0)))
    ensures Take(h, Join(0, 0, 1, Some(0))) == Pair(h.log, h.maxResync, NewRoom(1, 0), NewSub(h, 0, 0, 2))
  {
    assert map[][0 := NewRoom(1, 0)] == map[0 := NewRoom(1, 0)];
    assert map[][0 := NewSub(h, 0, 0, 2)] == map[0 := NewSub(h, 0, 0, 2)];
  }

  lemma GrowFirst(maxResync: nat, a: Op)
    requires a.seqno == 1
    ensures Enabled(NoHub(maxResync), Grow([a])) && Take(NoHub(maxResync), Grow([a])) == NoHub(maxResync).(log := [a])
  {
  }

  /** A subscriber joins a trip of one operation, of which it has none. */
  lemma {:induction false} JoinedBehind(maxResync: nat, a: Op) returns (actions: seq<Action>)
    requires a.seqno == 1 && maxResync >= 1
    ensures Runs(NoHub(maxResync), actions)
    ensures Ran(NoHub(maxResync), actions) ==
      Pair([a], maxResync, NewRoom(1, 0), NewSub(NoHub(maxResync).(log := [a]), 0, 0, 2))
  {
    var h1 := NoHub(maxResync).(log := [a]);
    GrowFirst(maxResync, a);
    JoinBehind(h1);
    actions := TwoSteps(NoHub(maxResync), Grow([a]), h1, Join(0, 0, 1, Some(0)),
                        Pair([a], maxResync, NewRoom(1, 0), NewSub(h1, 0, 0, 2)));
  }

  /** A subscriber that resumes from behind, whose replay fails at its first read, sees a gap as soon as its gate opens on
      what it held meanwhile. It has refused nothing. */
  lemma {:induction false} FailedReplayCanLeaveAGap(maxResync: nat, a: Op, b: Op) returns (actions: seq<Action>)
    requires a.seqno == 1 && b.seqno == 2 && maxResync >= 1
    ensures Runs(NoHub(maxResync), actions) && Inv(Ran(NoHub(maxResync), actions))
    ensures var h := Ran(NoHub(maxResync), actions);
      0 in h.subs && h.subs[0].sawGap && h.subs[0].got == [b] && h.subs[0].count == 0
      && h.subs[0].clean && ReplayFailed(h.subs[0].replay)
  {
    var start, log := NoHub(maxResync), [a, b];
    actions := JoinedBehind(maxResync, a);
    var room, s := NewRoom(1, 0), NewSub(start.(log := [a]), 0, 0, 2);
    GrowMoves([a], maxResync, room, s, log);
    Onward(start, actions, Pair([a], maxResync, room, s), Grow(log), Pair(log, maxResync, room, s));
    actions := actions + [Grow(log)];
    actions := OneArrival(start, actions, log, room, s, true);
    assert s.buffer + [b] == [b];
    actions := ReplayFails(start, actions, log, room.(next := 3, sent := room.sent + [b]), Offer(s, b, true), b);
    NoHubSound(maxResync);
    RunKeeps(start, actions);
  }

  /** A replay fails at its first read. */
  lemma {:induction false} FirstReadFails(start: Hub, before: seq<Action>, log: seq<Op>, room: Room, s: Sub)
      returns (actions: seq<Action>)
    requires Runs(start, before) && Ran(start, before) == Pair(log, start.maxResync, room, s) && s.replay.Unstarted?
    ensures Runs(start, actions)
    ensures Ran(start, actions) == Pair(log, start.maxResync, room, s.(replay := Releasing(false)))
  {
    var m := start.maxResync;
    var s1 := s.(replay := Fetching(s.from, 0));
    SubMoves(log, m, room, s, StartReplay(0), s1);
    Onward(start, before, Pair(log, m, room, s), StartReplay(0), Pair(log, m, room, s1));
    actions := before + [StartReplay(0)];
    var s2 := s.(replay := Releasing(false));
    SubMoves(log, m, room, s1, Fetch(0, false), s2);
    Onward(start, actions, Pair(log, m, room, s1), Fetch(0, false), Pair(log, m, room, s2));
    actions := actions + [Fetch(0, false)];
  }

  /** And the gate opens on one operation. */
  lemma {:induction false} ReplayFails(start: Hub, before: seq<Action>, log: seq<Op>, room: Room, s: Sub, b: Op)
      returns (actions: seq<Action>)
    requires Runs(start, before) && Ran(start, before) == Pair(log, start.maxResync, room, s)
    requires s.replay.Unstarted? && s.buffer == [b]
    ensures Runs(start, actions)
    ensures Ran(start, actions) ==
      Pair(log, start.maxResync, room, Accept(s.(replay := Ended(false), buffer := [], open := true), b))
  {
    var m, all, s2 := start.maxResync, (n: nat) => true, s.(replay := Releasing(false));
    actions := FirstReadFails(start, before, log, room, s);
    FlushOne(s2, b, all);
    var s3 := Accept(s.(replay := Ended(false), buffer := [], open := true), b);
    SubMoves(log, m, room, s2, OpenGate(0, all), s3);
    Onward(start, actions, Pair(log, m, room, s2), OpenGate(0, all), Pair(log, m, room, s3));
    actions := actions + [OpenGate(0, all)];
  }

  lemma FlushOne(s: Sub, op: Op, accepts: nat -> bool)
    requires accepts(0)
    ensures Flush(s, [op], accepts) == Accept(s, op)
  {
    assert [op][..0] == [];
  }
}
