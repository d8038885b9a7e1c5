/** The dispatcher of one room as the object it is: next, the operations held back, and the gap timer
    (internal/syncengine/room.go dispatch, drain, fill, reconcile). */
module Rooms {
  import opened Outcomes
  import opened Domain
  import opened Delivery
  import opened DeliverySafety
  import opened Turns

  /** What a dispatcher has broadcast and holds, at any point of a turn. */
  predicate InOrder(log: seq<Op>, head: nat, next: nat, sent: seq<Op>, pending: map<nat, Op>) {
    head < next <= |log| + 1 && sent == log[head..next - 1] && HeldFrom(log, next, pending)
  }

  lemma OneBroadcast(log: seq<Op>, head: nat, next: nat, sent: seq<Op>, pending: map<nat, Op>)
    requires InOrder(log, head, next, sent, pending) && next in pending
    ensures InOrder(log, head, next + 1, sent + [pending[next]], pending - {next})
    ensures |(pending - {next}).Keys| < |pending.Keys|
  {
    assert log[head..next] == log[head..next - 1] + [log[next - 1]];
    assert (pending - {next}).Keys == pending.Keys - {next};
  }

  class Dispatcher {
    var next: nat
    var pending: map<nat, Op>
    var armed: bool
    ghost var head: nat
    ghost var sent: seq<Op>

    /** The room this dispatcher is in the delivery protocol, between two turns of its loop. Its subscribers are kept by the
        room's other half. */
    ghost function AsRoom(members: set<SubId>): Room
      reads this
    {
      Room(next, pending, armed, members, Idle, head, sent)
    }

    ghost predicate Valid(log: seq<Op>)
      reads this
    {
      InOrder(log, head, next, sent, pending) && next !in pending && (pending != map[] ==> armed)
    }

    /** Between turns the dispatcher keeps exactly the room invariant of the delivery protocol. */
    lemma ValidIsRoomSound(log: seq<Op>, members: set<SubId>)
      ensures Valid(log) <==> RoomSound(log, AsRoom(members))
    {
    }

    /** A room opened at a head broadcasts what comes after it. */
    constructor (headSeq: nat)
      ensures next == headSeq + 1 && pending == map[] && !armed && head == headSeq && sent == []
      ensures forall log :: headSeq <= |log| ==> Valid(log)
    {
      next, pending, armed, head, sent := headSeq + 1, map[], false, headSeq, [];
    }

    method Broadcast(op: Op)
      modifies this`sent
      ensures sent == old(sent) + [op]
    {
      sent := sent + [op];
    }

    /** Emits every held operation that is now contiguous, and no other. */
    method Drain(ghost log: seq<Op>)
      requires InOrder(log, head, next, sent, pending)
      modifies this`next, this`pending, this`sent
      ensures InOrder(log, head, next, sent, pending)
      ensures next == FirstMissing(old(next), old(pending)) && HoldsFrom(pending, old(pending), next)
      ensures next !in pending
    {
      while next in pending.Keys
        invariant old(next) <= next && InOrder(log, head, next, sent, pending)
        invariant HoldsFrom(pending, old(pending), next)
        invariant forall k :: old(next) <= k < next ==> k in old(pending)
        decreases |pending.Keys|
      {
        var op := pending[next];
        OneBroadcast(log, head, next, sent, pending);
        pending := pending - {next};
        Broadcast(op);
        next := next + 1;
      }
      FirstMissingIs(old(next), old(pending), next);
    }

    /** fill: reads from the hole, holds what it finds, drains. read is the page the log returned, or nothing when the
        read failed. */
    method Fill(force: bool, read: Option<seq<Op>>, ghost log: seq<Op>)
      requires Numbered(log) && InOrder(log, head, next, sent, pending) && next !in pending
      requires read.Some? ==> read.value == ListSince(log, next - 1)
      modifies this`next, this`pending, this`sent
      ensures InOrder(log, head, next, sent, pending) && next !in pending
      ensures (old(pending) != map[] || force) && read.Some? ==>
        var held := Holding(old(next), old(pending), read.value);
        next == FirstMissing(old(next), held) && HoldsFrom(pending, held, next)
      ensures !((old(pending) != map[] || force) && read.Some?) ==> next == old(next) && pending == old(pending)
    {
      if (pending == map[] && !force) || read.None? {
        return;
      }
      HoldAll(read.value, log);
      Drain(log);
    }

    /** Takes each operation not yet broadcast into what is held. */
    method HoldAll(ops: seq<Op>, ghost log: seq<Op>)
      requires AllInLog(log, ops) && HeldFrom(log, next, pending)
      modifies this`pending
      ensures pending == Holding(next, old(pending), ops) && HeldFrom(log, next, pending)
    {
      for i := 0 to |ops|
        invariant pending == Holding(next, old(pending), ops[..i])
      {
        assert ops[..i + 1][..i] == ops[..i];
        if ops[i].seqno >= next {
          pending := pending[ops[i].seqno := ops[i]];
        }
      }
      assert ops[..|ops|] == ops;
      HoldingSound(log, next, old(pending), ops);
    }

    method Arm()
      modifies this`armed
      ensures armed == (old(armed) || pending != map[])
    {
      if pending != map[] {
        armed := true;
      }
    }

    /** An arrival before the timer is settled: what is held before the drain, and what the drain leaves. */
    method Arrive(op: Op, ghost log: seq<Op>, ghost members: set<SubId>) returns (ghost held: map<nat, Op>)
      requires Valid(log) && InLog(log, op)
      modifies this`next, this`pending, this`sent
      ensures held == if op.seqno >= old(next) then old(pending)[op.seqno := op] else old(pending)
      ensures TurnedInto(log, old(AsRoom(members)), held, AsRoom(members)) && HoldsFrom(pending, held, next)
      ensures op.seqno < old(next) ==> next == old(next) && pending == old(pending)
    {
      FilledNothing(next, pending);
      held := pending;
      if op.seqno >= next {
        pending := pending[op.seqno := op];
        held := pending;
        Drain(log);
      }
    }

    /** The dispatcher receives an operation, in whatever order and how often: it broadcasts everything that is now due,
        and runs its gap timer exactly while something is still held. It has then made one whole turn of the protocol. */
    method OnInbox(op: Op, ghost log: seq<Op>, ghost members: set<SubId>)
      requires Numbered(log) && Valid(log) && InLog(log, op)
      modifies this
      ensures Valid(log) && head == old(head) && armed == (pending != map[])
      ensures AsRoom(members) == Settled(Received(old(AsRoom(members)), op))
      ensures op.seqno < old(next) ==> next == old(next) && pending == old(pending)
      ensures op.seqno >= old(next) ==> var held := old(pending)[op.seqno := op];
        next == FirstMissing(old(next), held) && HoldsFrom(pending, held, next)
    {
      ValidIsRoomSound(log, members);
      ghost var held := Arrive(op, log, members);
      armed := pending != map[];
      InboxTurn(log, old(AsRoom(members)), op, held, AsRoom(members));
    }

    /** A fill as part of a turn: what is held before the drain, and how far it gets. */
    method Refill(force: bool, read: Option<seq<Op>>, ghost log: seq<Op>, ghost members: set<SubId>)
        returns (ghost held: map<nat, Op>)
      requires Numbered(log) && Valid(log) && (read.Some? ==> read.value == ListSince(log, next - 1))
      modifies this`next, this`pending, this`sent
      ensures held == HeldAfter(log, old(next), old(pending), (force || old(pending) != map[]) && read.Some?)
      ensures TurnedInto(log, old(AsRoom(members)), held, AsRoom(members)) && HoldsFrom(pending, held, next)
      ensures if (force || old(pending) != map[]) && read.Some? then next >= Reached(old(next), |log|) >= old(next)
              else next == old(next) && pending == old(pending)
    {
      ghost var fills := (force || pending != map[]) && read.Some?;
      held := HeldAfter(log, next, pending, fills);
      RefillReaches(log, next, pending, fills);
      FilledNothing(next, pending);
      Fill(force, read, log);
    }

    /** The gap timer fires: the hole is filled from the log. */
    method OnGapTimer(read: Option<seq<Op>>, ghost log: seq<Op>, ghost members: set<SubId>)
      requires Numbered(log) && Valid(log) && armed && (read.Some? ==> read.value == ListSince(log, next - 1))
      modifies this
      ensures Valid(log) && head == old(head) && next >= old(next)
      ensures old(pending) != map[] && read.Some? ==> next >= Reached(old(next), |log|)
      ensures AsRoom(members) == Settled(Filled(old(AsRoom(members)), log, read.Some?))
    {
      ValidIsRoomSound(log, members);
      ghost var held := Refill(false, read, log, members);
      armed := false;
      Arm();
      GapTimerTurn(log, old(AsRoom(members)), read.Some?, held, AsRoom(members));
    }

    /** The reconcile tick: the trip's head is compared with what has been broadcast, which is how a lost last operation
        is noticed. */
    method OnReconcile(trip: Option<nat>, read: Option<seq<Op>>, ghost log: seq<Op>, ghost members: set<SubId>)
      requires Numbered(log) && Valid(log) && (read.Some? ==> read.value == ListSince(log, next - 1))
      modifies this
      ensures Valid(log) && head == old(head) && next >= old(next)
      ensures trip.Some? && (trip.value >= old(next) || old(pending) != map[]) && read.Some? ==>
        next >= Reached(old(next), |log|)
      ensures AsRoom(members) ==
        if trip.Some? && (trip.value >= old(next) || old(pending) != map[]) && read.Some?
        then Settled(Reconciled(old(AsRoom(members)), log)) else old(AsRoom(members))
    {
      ValidIsRoomSound(log, members);
      if trip.None? || (trip.value < next && pending == map[]) {
        Arm();
        return;
      }
      ghost var held := Refill(true, read, log, members);
      Arm();
      if read.Some? {
        ReconcileTurn(log, old(AsRoom(members)), held, AsRoom(members));
      }
    }
  }

  /** What is held once a page has been read from the hole, or none has. */
  function HeldAfter(log: seq<Op>, next: nat, pending: map<nat, Op>, fills: bool): map<nat, Op>
    requires next >= 1
  {
    if fills then Holding(next, pending, ListSince(log, next - 1)) else pending
  }

  /** A sound idle room that has broadcast and holds what a drain leaves is what the drain leaves. */
  lemma TurnTaken(log: seq<Op>, draining: Room, room: Room)
    requires Numbered(log) && RoomSound(log, draining) && draining.mode.Draining? && RoomSound(log, room) && room.mode.Idle?
    requires room.head == draining.head && room.members == draining.members
    requires room.next == FirstMissing(draining.next, draining.pending)
    requires HoldsFrom(room.pending, draining.pending, room.next)
    requires room.armed == (room.pending != map[] || (!draining.mode.disarms && draining.armed))
    ensures room == Settled(draining)
  {
    SettledSound(log, draining);
    SettledIs(draining);
    var s := Settled(draining);
    assert forall k :: k in room.pending <==> k in s.pending;
    assert room.pending == s.pending;
  }

  /** What a dispatcher's turn leaves, given what its methods promise of next, pending and the timer. */
  predicate TurnedInto(log: seq<Op>, was: Room, held: map<nat, Op>, room: Room) {
    && room.mode.Idle? && room.head == was.head && room.members == was.members
    && InOrder(log, room.head, room.next, room.sent, room.pending) && room.next !in room.pending
    && room.next == FirstMissing(was.next, held)
  }

  lemma TurnedIsSound(log: seq<Op>, was: Room, held: map<nat, Op>, room: Room)
    requires TurnedInto(log, was, held, room) && (room.pending != map[] ==> room.armed)
    ensures RoomSound(log, room)
  {
  }

  lemma TurnTakenFrom(log: seq<Op>, was: Room, draining: Room, room: Room)
    requires Numbered(log) && RoomSound(log, draining) && draining.mode.Draining?
    requires draining.head == was.head && draining.members == was.members && draining.next == was.next
    requires TurnedInto(log, was, draining.pending, room) && HoldsFrom(room.pending, draining.pending, room.next)
    requires room.armed == (room.pending != map[] || (!draining.mode.disarms && draining.armed))
    ensures room == Settled(draining)
  {
    TurnedIsSound(log, was, draining.pending, room);
    TurnTaken(log, draining, room);
  }

  lemma InboxTurn(log: seq<Op>, was: Room, op: Op, held: map<nat, Op>, room: Room)
    requires Numbered(log) && RoomSound(log, was) && was.mode.Idle? && InLog(log, op)
    requires held == if op.seqno >= was.next then was.pending[op.seqno := op] else was.pending
    requires TurnedInto(log, was, held, room) && HoldsFrom(room.pending, held, room.next)
    requires room.armed == (room.pending != map[])
    ensures room == Settled(Received(was, op))
  {
    ReceivedSound(log, was, op.seqno - 1);
    TurnTakenFrom(log, was, Received(was, op), room);
  }

  lemma FilledIs(log: seq<Op>, was: Room, readOk: bool, held: map<nat, Op>)
    requires was.next >= 1
    requires held == HeldAfter(log, was.next, was.pending, was.pending != map[] && readOk)
    ensures Filled(was, log, readOk) == was.(pending := held, armed := false, mode := Draining(false))
  {
  }

  lemma GapTimerTurn(log: seq<Op>, was: Room, readOk: bool, held: map<nat, Op>, room: Room)
    requires Numbered(log) && RoomSound(log, was) && was.mode.Idle?
    requires held == HeldAfter(log, was.next, was.pending, was.pending != map[] && readOk)
    requires TurnedInto(log, was, held, room) && HoldsFrom(room.pending, held, room.next)
    requires room.armed == (room.pending != map[])
    ensures room == Settled(Filled(was, log, readOk))
  {
    var draining := was.(pending := held, armed := false, mode := Draining(false));
    FilledIs(log, was, readOk, held);
    assert RoomSound(log, draining) by {
      FilledSound(log, was, readOk);
    }
    TurnTakenFrom(log, was, draining, room);
  }

  lemma ReconciledIs(log: seq<Op>, was: Room, held: map<nat, Op>)
    requires was.next >= 1 && held == HeldAfter(log, was.next, was.pending, true)
    ensures Reconciled(was, log) == was.(pending := held, mode := Draining(false))
  {
  }

  lemma ReconcileTurn(log: seq<Op>, was: Room, held: map<nat, Op>, room: Room)
    requires Numbered(log) && RoomSound(log, was) && was.mode.Idle?
    requires held == HeldAfter(log, was.next, was.pending, true)
    requires TurnedInto(log, was, held, room) && HoldsFrom(room.pending, held, room.next)
    requires room.armed == (room.pending != map[] || was.armed)
    ensures room == Settled(Reconciled(was, log))
  {
    var draining := was.(pending := held, mode := Draining(false));
    ReconciledIs(log, was, held);
    assert RoomSound(log, draining) by {
      FilledSound(log, was, true);
    }
    TurnTakenFrom(log, was, draining, room);
  }

  // ----- progress -----

  /** How far one successful fill gets a room: to the end of the log, or a page. */
  function Reached(next: nat, length: nat): nat {
    if length + 1 < next + PAGE then length + 1 else next + PAGE
  }

  lemma {:induction false} HoldingHolds(next: nat, pending: map<nat, Op>, ops: seq<Op>)
    ensures pending.Keys <= Holding(next, pending, ops).Keys
    ensures forall i :: 0 <= i < |ops| && ops[i].seqno >= next ==> ops[i].seqno in Holding(next, pending, ops)
  {
    if ops != [] {
      HoldingHolds(next, pending, ops[..|ops| - 1]);
    }
  }

  lemma FilledNothing(next: nat, pending: map<nat, Op>)
    requires next !in pending
    ensures FirstMissing(next, pending) == next
  {
  }

  lemma RefillReaches(log: seq<Op>, next: nat, pending: map<nat, Op>, fills: bool)
    requires Numbered(log) && 1 <= next <= |log| + 1 && HeldFrom(log, next, pending) && next !in pending
    ensures var there := FirstMissing(next, HeldAfter(log, next, pending, fills));
      if fills then there >= Reached(next, |log|) >= next else there == next
  {
    FillReaches(log, next, pending);
  }

  /** A page read from the hole fills it up to the end of the log or the page, with nothing beyond the log. */
  lemma PageFills(log: seq<Op>, next: nat, pending: map<nat, Op>)
    requires Numbered(log) && 1 <= next <= |log| + 1 && HeldFrom(log, next, pending)
    ensures var held := Holding(next, pending, ListSince(log, next - 1));
      && HeldFrom(log, next, held)
      && forall k :: next <= k < Reached(next, |log|) ==> k in held
  {
    var page := ListSince(log, next - 1);
    PageInLog(log, next - 1);
    HoldingSound(log, next, pending, page);
    HoldingHolds(next, pending, page);
    PageReaches(log, next);
    forall k | next <= k < Reached(next, |log|) ensures k in Holding(next, pending, page) {
      assert page[k - next].seqno == k;
    }
  }

  lemma PageReaches(log: seq<Op>, next: nat)
    requires Numbered(log) && 1 <= next <= |log| + 1
    ensures var page := ListSince(log, next - 1);
      next + |page| == Reached(next, |log|) && forall i :: 0 <= i < |page| ==> page[i].seqno == next + i
  {
  }

  /** A fill moves next to the end of the log or a whole page on, whatever the room held; never past the end. */
  lemma FillReaches(log: seq<Op>, next: nat, pending: map<nat, Op>)
    requires Numbered(log) && 1 <= next <= |log| + 1 && HeldFrom(log, next, pending)
    ensures var there := FirstMissing(next, Holding(next, pending, ListSince(log, next - 1)));
      Reached(next, |log|) <= there <= |log| + 1
  {
    PageFills(log, next, pending);
    MissingIsBeyond(log, next, Reached(next, |log|), Holding(next, pending, ListSince(log, next - 1)));
  }

  lemma MissingIsBeyond(log: seq<Op>, next: nat, reached: nat, held: map<nat, Op>)
    requires next <= reached <= |log| + 1 && HeldFrom(log, next, held) && forall k :: next <= k < reached ==> k in held
    ensures reached <= FirstMissing(next, held) <= |log| + 1
  {
    FirstMissingSpec(next, held);
    assert |log| + 1 !in held;
  }

  /** One reconciliation with a successful read gets a room to the end of the log, or a page further. */
  lemma ReconcileReaches(log: seq<Op>, room: Room)
    requires Numbered(log) && RoomSound(log, room) && room.mode.Idle?
    ensures var after := Settled(Reconciled(room, log));
      && RoomSound(log, after) && after.mode.Idle? && after.head == room.head && after.members == room.members
      && Reached(room.next, |log|) <= after.next
  {
    var draining := Reconciled(room, log);
    FilledSound(log, room, true);
    SettledSound(log, draining);
    ReconcileAdvances(log, room);
  }

  lemma ReconcileAdvances(log: seq<Op>, room: Room)
    requires Numbered(log) && 1 <= room.next <= |log| + 1 && HeldFrom(log, room.next, room.pending)
    ensures Settled(Reconciled(room, log)).next >= Reached(room.next, |log|)
  {
    var held := Holding(room.next, room.pending, ListSince(log, room.next - 1));
    PageInLog(log, room.next - 1);
    HoldingSound(log, room.next, room.pending, ListSince(log, room.next - 1));
    ReconciledIs(log, room, held);
    SettledIs(Reconciled(room, log));
    FillReaches(log, room.next, room.pending);
  }

  /** The end of the log, for what lies beyond it. */
  function Capped(next: nat, length: nat): nat {
    if next <= length then next else length + 1
  }

  lemma OnePageFurther(log: seq<Op>, room: Room, from: nat)
    requires Numbered(log) && RoomSound(log, room) && room.mode.Idle? && room.next >= Capped(from, |log|)
    ensures Settled(Reconciled(room, log)).next >= Capped(from + PAGE, |log|)
  {
    ReconcileReaches(log, room);
  }

  /** A room after n reconciliations with a log that has gone quiet: each brings it a page nearer the end. */
  function Reconciles(log: seq<Op>, room: Room, n: nat): (after: Room)
    requires Numbered(log) && RoomSound(log, room) && room.mode.Idle?
    ensures RoomSound(log, after) && after.mode.Idle? && after.next >= Capped(room.next + n * PAGE, |log|)
  {
    if n == 0 then room
    else
      var before := Reconciles(log, room, n - 1);
      ReconcileReaches(log, before);
      OnePageFurther(log, before, room.next + (n - 1) * PAGE);
      Settled(Reconciled(before, log))
  }

  lemma NothingHeldAtTheEnd(log: seq<Op>, room: Room)
    requires RoomSound(log, room) && room.mode.Idle? && room.next == |log| + 1
    ensures room.pending == map[]
  {
    assert forall k :: k !in room.pending;
  }

  /** Even if every broadcast is lost, a room catches up with a quiet log in one reconciliation for each page it is behind,
      and holds nothing then. */
  lemma QuietLogIsCaughtUp(log: seq<Op>, room: Room, n: nat)
    requires Numbered(log) && RoomSound(log, room) && room.mode.Idle?
    ensures n * PAGE >= |log| + 1 - room.next ==>
      Reconciles(log, room, n).next == |log| + 1 && Reconciles(log, room, n).pending == map[]
  {
    if n * PAGE >= |log| + 1 - room.next {
      AtTheEnd(log, Reconciles(log, room, n), room.next + n * PAGE);
    }
  }

  lemma AtTheEnd(log: seq<Op>, room: Room, from: nat)
    requires RoomSound(log, room) && room.mode.Idle? && room.next >= Capped(from, |log|) && from >= |log| + 1
    ensures room.next == |log| + 1 && room.pending == map[]
  {
    NothingHeldAtTheEnd(log, room);
  }

  lemma {:induction false} ReconcileRuns(h: Hub, r: RoomId, n: nat, accepts: (SubId, Op) -> bool) returns (actions: seq<Action>)
    requires Inv(h) && r in h.rooms && h.rooms[r].mode.Idle? && Numbered(h.log) && RoomSound(h.log, h.rooms[r])
    ensures Runs(h, actions) && TurnsIn(actions) == n && Answered(actions, false, accepts)
    ensures var h' := Ran(h, actions);
      Inv(h') && h'.log == h.log && h'.rooms == h.rooms[r := Reconciles(h.log, h.rooms[r], n)]
  {
    if n == 0 {
      actions := [];
      NoReconcile(h, r);
    } else {
      var before := ReconcileRuns(h, r, n - 1, accepts);
      actions := OneMoreReconcile(h, before, r, n, accepts);
    }
  }

  lemma NoReconcile(h: Hub, r: RoomId)
    requires r in h.rooms && h.rooms[r].mode.Idle? && Numbered(h.log) && RoomSound(h.log, h.rooms[r])
    ensures Runs(h, []) && Ran(h, []) == h && h.rooms == h.rooms[r := Reconciles(h.log, h.rooms[r], 0)]
  {
  }

  lemma RoomIsSound(h: Hub, r: RoomId)
    requires Inv(h) && r in h.rooms
    ensures Numbered(h.log) && RoomSound(h.log, h.rooms[r])
  {
  }

  /** In any state the delivery protocol keeps, an idle room's reconciliations are such a run: n of them, with whatever answers
      its subscribers give, bring it to the end of a log that does not grow. */
  lemma {:induction false} QuietRoomCatchesUp(h: Hub, r: RoomId, n: nat, accepts: (SubId, Op) -> bool) returns (actions: seq<Action>)
    requires Inv(h) && r in h.rooms && h.rooms[r].mode.Idle?
    ensures Runs(h, actions) && TurnsIn(actions) == n && Answered(actions, false, accepts)
    ensures var h' := Ran(h, actions); Inv(h') && h'.log == h.log && r in h'.rooms && h'.rooms == h.rooms[r := h'.rooms[r]]
    ensures Ran(h, actions).rooms[r].mode.Idle?
    ensures n * PAGE >= |h.log| + 1 - h.rooms[r].next ==>
      Ran(h, actions).rooms[r].next == |h.log| + 1 && Ran(h, actions).rooms[r].pending == map[]
  {
    RoomIsSound(h, r);
    actions := ReconcileRuns(h, r, n, accepts);
    QuietLogIsCaughtUp(h.log, h.rooms[r], n);
  }

  lemma {:induction false} OneMoreReconcile(h: Hub, before: seq<Action>, r: RoomId, n: nat, accepts: (SubId, Op) -> bool)
      returns (actions: seq<Action>)
    requires n > 0 && Numbered(h.log) && r in h.rooms && RoomSound(h.log, h.rooms[r]) && h.rooms[r].mode.Idle?
    requires Runs(h, before) && TurnsIn(before) == n - 1 && Answered(before, false, accepts)
    requires var h' := Ran(h, before);
      Inv(h') && h'.log == h.log && h'.rooms == h.rooms[r := Reconciles(h.log, h.rooms[r], n - 1)]
    ensures Runs(h, actions) && TurnsIn(actions) == n && Answered(actions, false, accepts)
    ensures var h' := Ran(h, actions);
      Inv(h') && h'.log == h.log && h'.rooms == h.rooms[r := Reconciles(h.log, h.rooms[r], n)]
  {
    var mid := Ran(h, before);
    ReconcileTaken(mid, r);
    var turn := TurnIsARun(mid, Reconcile(r), accepts);
    RoomsAfter(h, mid, Ran(mid, turn), r, n);
    RunInTurn(h, before, turn);
    TurnsAdd(before, turn);
    AnsweredAdds(before, turn, false, accepts);
    actions := before + turn;
  }

  lemma RoomsAfter(h: Hub, mid: Hub, after: Hub, r: RoomId, n: nat)
    requires n > 0 && Numbered(h.log) && r in h.rooms && RoomSound(h.log, h.rooms[r]) && h.rooms[r].mode.Idle?
    requires mid.rooms == h.rooms[r := Reconciles(h.log, h.rooms[r], n - 1)]
    requires mid.rooms[r].next >= 1 && after.rooms == mid.rooms[r := Settled(Reconciled(mid.rooms[r], h.log))]
    ensures after.rooms == h.rooms[r := Reconciles(h.log, h.rooms[r], n)]
  {
  }

  lemma ReconcileTaken(h: Hub, r: RoomId)
    requires r in h.rooms && h.rooms[r].mode.Idle? && h.rooms[r].next >= 1
    ensures Enabled(h, Reconcile(r)) && Take(h, Reconcile(r)).rooms[r] == Reconciled(h.rooms[r], h.log)
  {
  }
}
