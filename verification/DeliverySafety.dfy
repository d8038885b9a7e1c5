/** Every step of the delivery protocol keeps its invariant, so no interleaving of commits, lossy broadcasts, timers, joins
    and replays can leave a clean subscriber with a gap, or any subscriber with a wrong replica. */
module DeliverySafety {
  import opened Outcomes
  import opened Domain
  import opened Delivery

  // ----- the log grows -----

  lemma RoomOutlivesGrowth(log: seq<Op>, longer: seq<Op>, room: Room)
    requires RoomSound(log, room) && log <= longer
    ensures RoomSound(longer, room)
  {
  }

  lemma SubOutlivesGrowth(log: seq<Op>, longer: seq<Op>, s: Sub)
    requires SubSound(log, s) && log <= longer
    ensures SubSound(longer, s)
  {
  }

  // ----- rooms -----

  predicate HeldFrom(log: seq<Op>, next: nat, pending: map<nat, Op>) {
    forall k :: k in pending ==> 1 <= k <= |log| && pending[k] == log[k - 1] && k >= next
  }

  lemma {:induction false} HoldingSound(log: seq<Op>, next: nat, pending: map<nat, Op>, ops: seq<Op>)
    requires HeldFrom(log, next, pending)
    requires AllInLog(log, ops)
    ensures HeldFrom(log, next, Holding(next, pending, ops))
  {
    if ops != [] {
      HoldingSound(log, next, pending, ops[..|ops| - 1]);
    }
  }

  lemma PageInLog(log: seq<Op>, after: nat)
    requires Numbered(log)
    ensures var page := ListSince(log, after);
      && |page| <= PAGE && AllInLog(log, page)
      && (after <= |log| ==> after + |page| <= |log| && page == log[after..after + |page|])
      && (|page| < PAGE && after <= |log| ==> after + |page| == |log|)
  {
  }

  lemma ReceivedSound(log: seq<Op>, room: Room, k: nat)
    requires Numbered(log) && RoomSound(log, room) && room.mode.Idle? && k < |log|
    ensures RoomSound(log, Received(room, log[k]))
  {
  }

  lemma FilledSound(log: seq<Op>, room: Room, readOk: bool)
    requires Numbered(log) && RoomSound(log, room) && room.mode.Idle?
    ensures RoomSound(log, Filled(room, log, readOk)) && RoomSound(log, Reconciled(room, log))
  {
    PageHeld(log, room.next, room.pending);
    DrainingSound(log, room, Holding(room.next, room.pending, ListSince(log, room.next - 1)), false);
    DrainingSound(log, room, Holding(room.next, room.pending, ListSince(log, room.next - 1)), room.armed);
    DrainingSound(log, room, room.pending, false);
  }

  lemma PageHeld(log: seq<Op>, next: nat, pending: map<nat, Op>)
    requires Numbered(log) && next >= 1 && HeldFrom(log, next, pending)
    ensures HeldFrom(log, next, Holding(next, pending, ListSince(log, next - 1)))
  {
    PageInLog(log, next - 1);
    HoldingSound(log, next, pending, ListSince(log, next - 1));
  }

  lemma DrainingSound(log: seq<Op>, room: Room, pending: map<nat, Op>, armed: bool)
    requires RoomSound(log, room) && HeldFrom(log, room.next, pending)
    ensures RoomSound(log, room.(pending := pending, armed := armed, mode := Draining(false)))
  {
  }

  lemma DrainedSound(log: seq<Op>, room: Room)
    requires RoomSound(log, room) && room.mode.Draining?
    ensures RoomSound(log, Drained(room))
  {
  }

  lemma RoomFinishes(log: seq<Op>, room: Room)
    requires Numbered(log) && RoomSound(log, room) && room.mode.Sending? && room.mode.targets == {}
    ensures RoomSound(log, Finished(room))
  {
  }

  // ----- subscribers -----

  /** A refusal leaves everything but the subscription's record. */
  lemma RefusalKeeps(log: seq<Op>, s: Sub)
    requires SubSound(log, s)
    ensures SubSound(log, s.(clean := false))
  {
  }

  /** A closed gate takes one more operation into the stretch of the log it holds. */
  lemma BufferedKeeps(log: seq<Op>, s: Sub, op: Op)
    requires SubSound(log, s) && InLog(log, op) && !s.open && (s.clean ==> s.offered == op.seqno)
    ensures SubSound(log, s.(buffer := s.buffer + [op], offered := op.seqno + 1))
  {
    var t := s.(buffer := s.buffer + [op], offered := op.seqno + 1);
    assert AllInLog(log, t.buffer);
    if s.clean {
      assert log[s.first - 1..op.seqno] == log[s.first - 1..op.seqno - 1] + [log[op.seqno - 1]];
    }
  }

  /** An open gate passes it on. */
  lemma PassedKeeps(log: seq<Op>, s: Sub, op: Op)
    requires SubSound(log, s) && InLog(log, op) && s.open && (s.clean ==> s.offered == op.seqno)
    ensures SubSound(log, Accept(s, op).(offered := op.seqno + 1))
  {
    assert AllInLog(log, s.got + [op]);
  }

  /** The gate takes the operation it expects. */
  lemma OfferKeeps(log: seq<Op>, s: Sub, op: Op, accepts: bool)
    requires SubSound(log, s) && InLog(log, op) && (s.clean ==> s.offered == op.seqno)
    ensures var t := Offer(s, op, accepts); SubSound(log, t) && (t.clean ==> t.offered == op.seqno + 1)
    ensures var t := Offer(s, op, accepts); t.room == s.room && (t.clean ==> s.clean)
  {
    if !accepts || (!s.open && |s.buffer| >= GATE_BUFFER) {
      RefusalKeeps(log, s);
    } else if s.open {
      PassedKeeps(log, s, op);
    } else {
      BufferedKeeps(log, s, op);
    }
  }

  predicate Consecutive(ops: seq<Op>) {
    forall i :: 0 <= i < |ops| ==> ops[i].seqno == ops[0].seqno + i
  }

  /** Flushing a contiguous stretch that starts no later than the client's next, all of it accepted, leaves no gap. */
  lemma {:induction false} FlushKeeps(log: seq<Op>, s: Sub, ops: seq<Op>, accepts: nat -> bool)
    requires AllInLog(log, ops) && AllInLog(log, s.got) && s.count <= |log|
    ensures var t := Flush(s, ops, accepts);
      && s.count <= t.count <= |log| && AllInLog(log, t.got)
      && t == s.(got := t.got, count := t.count, sawGap := t.sawGap, clean := t.clean)
      && (t.clean ==> s.clean)
    ensures var t := Flush(s, ops, accepts);
      t.clean && ops != [] && Consecutive(ops) && ops[0].seqno <= s.count + 1 ==>
        t.sawGap == s.sawGap && t.count >= ops[|ops| - 1].seqno
  {
    if ops != [] {
      FlushKeeps(log, s, ops[..|ops| - 1], accepts);
    }
  }

  lemma StretchIsConsecutive(log: seq<Op>, i: nat, j: nat)
    requires Numbered(log) && i <= j <= |log|
    ensures Consecutive(log[i..j])
  {
  }

  lemma ReleaseKeeps(log: seq<Op>, s: Sub, accepts: nat -> bool)
    requires Numbered(log) && SubSound(log, s) && s.replay.Releasing?
    ensures var t := Release(s, accepts); SubSound(log, t) && t.room == s.room && t.offered == s.offered && (t.clean ==> s.clean)
  {
    FlushKeeps(log, s, s.buffer, accepts);
    if s.clean {
      StretchIsConsecutive(log, s.first - 1, s.offered - 1);
    }
  }

  /** The next operation of the log is accepted, with nothing skipped. */
  lemma NextAccepted(log: seq<Op>, s: Sub)
    requires Numbered(log) && s.count < |log| && AllInLog(log, s.got)
    ensures var t := Accept(s, log[s.count]);
      t.count == s.count + 1 && t.sawGap == s.sawGap && AllInLog(log, t.got) && InLog(log, log[s.count])
  {
  }

  lemma StreamRefused(log: seq<Op>, s: Sub)
    requires SubSound(log, s) && s.replay.Streaming?
    ensures SubSound(log, s.(clean := false, replay := Releasing(false)))
  {
  }

  lemma StreamStops(log: seq<Op>, s: Sub)
    requires Numbered(log) && SubSound(log, s) && s.replay.Streaming? && s.replay.rest != []
    ensures SubSound(log, Accept(s, s.replay.rest[0]).(replay := Releasing(false)))
  {
    NextAccepted(log, s);
  }

  lemma StreamGoesOn(log: seq<Op>, s: Sub, delivered: nat)
    requires Numbered(log) && SubSound(log, s) && s.replay.Streaming? && s.replay.rest != []
    ensures var op := s.replay.rest[0];
      SubSound(log, Accept(s, op).(replay := Streaming(op.seqno, s.replay.rest[1..], s.replay.short, delivered)))
  {
    var c, rest := s.replay.cursor, s.replay.rest;
    NextAccepted(log, s);
    assert rest[1..] == log[c + 1..c + |rest|];
  }

  lemma StreamKeeps(log: seq<Op>, s: Sub, accepts: bool, maxResync: nat)
    requires Numbered(log) && SubSound(log, s) && s.replay.Streaming? && s.replay.rest != []
    ensures var t := Streamed(s, accepts, maxResync);
      SubSound(log, t) && t.room == s.room && t.offered == s.offered && (t.clean ==> s.clean)
  {
    if !accepts {
      StreamRefused(log, s);
    } else if s.replay.delivered + 1 > maxResync {
      StreamStops(log, s);
    } else {
      StreamGoesOn(log, s, s.replay.delivered + 1);
    }
  }

  lemma FetchKeeps(log: seq<Op>, s: Sub, readOk: bool)
    requires Numbered(log) && SubSound(log, s) && s.replay.Fetching?
    ensures var c := s.replay.cursor; var page := ListSince(log, c);
      SubSound(log, s.(replay := if readOk then Streaming(c, page, |page| < PAGE, s.replay.delivered) else Releasing(false)))
  {
  }

  // ----- one action -----

  /** Only room r changes, and it keeps offering every subscriber what it expects. */
  lemma RoomActionKeeps(h: Hub, r: RoomId, room: Room)
    requires Inv(h) && r in h.rooms && RoomSound(h.log, room)
    requires room.members == h.rooms[r].members && Targets(room) <= h.rooms[r].members + Targets(h.rooms[r])
    requires forall u :: u in room.members || u in Targets(room) ==> Expect(room, u) == Expect(h.rooms[r], u)
    ensures Inv(h.(rooms := h.rooms[r := room]))
  {
    var h' := h.(rooms := h.rooms[r := room]);
    assert RoomsSound(h') by {
      forall q | q in h'.rooms ensures RoomSound(h'.log, h'.rooms[q]) && MembersKnown(h', q, h'.rooms[q]) {
        assert MembersKnown(h, q, h.rooms[q]);
      }
    }
    forall u | u in h'.subs ensures Linked(h'.rooms[h'.subs[u].room], u, h'.subs[u]) {
      assert Linked(h.rooms[h.subs[u].room], u, h.subs[u]);
    }
  }

  /** Only subscriber u changes, and nothing its room relies on. */
  lemma SubActionKeeps(h: Hub, u: SubId, s: Sub)
    requires Inv(h) && u in h.subs && SubSound(h.log, s)
    requires s.room == h.subs[u].room && s.offered == h.subs[u].offered && (s.clean ==> h.subs[u].clean)
    ensures Inv(h.(subs := h.subs[u := s]))
  {
  }

  lemma GrowKeeps(h: Hub, log: seq<Op>)
    requires Inv(h) && h.log <= log && Numbered(log)
    ensures Inv(h.(log := log))
  {
    var h' := h.(log := log);
    forall r | r in h'.rooms ensures RoomSound(log, h'.rooms[r]) && MembersKnown(h', r, h'.rooms[r]) {
      RoomOutlivesGrowth(h.log, log, h.rooms[r]);
      assert MembersKnown(h, r, h.rooms[r]);
    }
    forall u | u in h'.subs ensures SubSound(log, h'.subs[u]) {
      SubOutlivesGrowth(h.log, log, h.subs[u]);
    }
    forall u | u in h'.subs ensures Linked(h'.rooms[h'.subs[u].room], u, h'.subs[u]) {
      assert Linked(h.rooms[h.subs[u].room], u, h.subs[u]);
    }
  }

  lemma JoinedRooms(h: Hub, u: SubId, r: RoomId, head: nat, since: Option<nat>)
    requires Inv(h) && Enabled(h, Join(u, r, head, since))
    ensures RoomsSound(Joined(h, u, r, head, since))
  {
    var h' := Joined(h, u, r, head, since);
    forall q | q in h'.rooms ensures RoomSound(h'.log, h'.rooms[q]) && MembersKnown(h', q, h'.rooms[q]) {
      if q in h.rooms {
        assert MembersKnown(h, q, h.rooms[q]);
        JoinedRoom(h.log, h.rooms[q], u);
      } else {
        OpenedRoom(h.log, head, u);
      }
    }
  }

  lemma JoinedRoom(log: seq<Op>, room: Room, u: SubId)
    requires RoomSound(log, room)
    ensures RoomSound(log, room.(members := room.members + {u}))
  {
  }

  lemma OpenedRoom(log: seq<Op>, head: nat, u: SubId)
    requires head <= |log|
    ensures RoomSound(log, NewRoom(head, u))
  {
  }

  lemma JoinedLinks(h: Hub, u: SubId, r: RoomId, head: nat, since: Option<nat>)
    requires Inv(h) && Enabled(h, Join(u, r, head, since))
    ensures LinksSound(Joined(h, u, r, head, since))
  {
  }

  lemma JoinedSubs(h: Hub, u: SubId, r: RoomId, head: nat, since: Option<nat>)
    requires Inv(h) && Enabled(h, Join(u, r, head, since))
    ensures SubsSound(Joined(h, u, r, head, since))
  {
  }

  lemma CloseKeeps(h: Hub, u: SubId)
    requires Inv(h) && u in h.subs
    ensures Inv(Closed(h, u))
  {
    var r, marked := h.subs[u].room, h.(subs := h.subs[u := h.subs[u].(closed := true)]);
    SubActionKeeps(h, u, h.subs[u].(closed := true));
    if h.current == Some(r) {
      LeftKeeps(marked, u, r);
    }
  }

  lemma LeftKeeps(h: Hub, u: SubId, r: RoomId)
    requires Inv(h) && h.current == Some(r)
    ensures var room := h.rooms[r].(members := h.rooms[r].members - {u});
      Inv(h.(rooms := h.rooms[r := room], current := if room.members == {} then None else h.current))
  {
    LeftRoom(h, r, h.rooms[r].(members := h.rooms[r].members - {u}));
  }

  lemma LeftRoom(h: Hub, r: RoomId, room: Room)
    requires RoomsSound(h) && LinksSound(h) && r in h.rooms
    requires room == h.rooms[r].(members := room.members) && room.members <= h.rooms[r].members
    ensures RoomsSound(h.(rooms := h.rooms[r := room])) && LinksSound(h.(rooms := h.rooms[r := room]))
  {
    var h' := h.(rooms := h.rooms[r := room]);
    assert RoomsSound(h') by {
      forall q | q in h'.rooms ensures RoomSound(h'.log, h'.rooms[q]) && MembersKnown(h', q, h'.rooms[q]) {
        assert MembersKnown(h, q, h.rooms[q]);
      }
    }
    forall v | v in h'.subs && h'.subs[v].room in h'.rooms ensures Linked(h'.rooms[h'.subs[v].room], v, h'.subs[v]) {
      if h.subs[v].room in h.rooms {
        assert Linked(h.rooms[h.subs[v].room], v, h.subs[v]);
      }
    }
  }

  function SentTo(room: Room, u: SubId): Room
    requires room.mode.Sending?
  {
    room.(mode := room.mode.(targets := room.mode.targets - {u}))
  }

  lemma SendLinks(h: Hub, r: RoomId, u: SubId, s: Sub)
    requires LinksSound(h) && r in h.rooms && h.rooms[r].mode.Sending? && u in h.subs && h.subs[u].room == r && s.room == r
    requires s.clean ==> s.offered == h.rooms[r].next + 1
    ensures LinksSound(h.(rooms := h.rooms[r := SentTo(h.rooms[r], u)], subs := h.subs[u := s]))
  {
  }

  lemma SendRooms(h: Hub, r: RoomId, u: SubId, s: Sub)
    requires RoomsSound(h) && r in h.rooms && h.rooms[r].mode.Sending? && u in h.subs && s.room == h.subs[u].room
    ensures RoomsSound(h.(rooms := h.rooms[r := SentTo(h.rooms[r], u)], subs := h.subs[u := s]))
  {
  }

  lemma SendKeeps(h: Hub, r: RoomId, u: SubId, accepts: bool)
    requires Inv(h) && Enabled(h, Send(r, u, accepts))
    ensures Inv(Take(h, Send(r, u, accepts)))
  {
    var room, s := h.rooms[r], h.subs[u];
    assert RoomSound(h.log, room) && MembersKnown(h, r, room) && Linked(room, u, s);
    OfferKeeps(h.log, s, room.mode.op, accepts);
    SendLinks(h, r, u, Offer(s, room.mode.op, accepts));
    SendRooms(h, r, u, Offer(s, room.mode.op, accepts));
  }

  lemma ReadingStepKeeps(h: Hub, a: Action)
    requires Inv(h) && Enabled(h, a) && (a.Receive? || a.GapTimer? || a.Reconcile?)
    ensures Inv(Take(h, a))
  {
    var room := h.rooms[a.r];
    assert RoomSound(h.log, room);
    match a
    case Receive(r, k) =>
      ReceivedSound(h.log, room, k);
      RoomActionKeeps(h, r, Received(room, h.log[k]));
    case GapTimer(r, readOk) =>
      FilledSound(h.log, room, readOk);
      RoomActionKeeps(h, r, Filled(room, h.log, readOk));
    case Reconcile(r) =>
      FilledSound(h.log, room, true);
      RoomActionKeeps(h, r, Reconciled(room, h.log));
  }

  lemma SendingStepKeeps(h: Hub, a: Action)
    requires Inv(h) && Enabled(h, a) && (a.Drain? || a.Sent?)
    ensures Inv(Take(h, a))
  {
    var room := h.rooms[a.r];
    assert RoomSound(h.log, room);
    match a
    case Drain(r) =>
      DrainedSound(h.log, room);
      RoomActionKeeps(h, r, Drained(room));
    case Sent(r) =>
      RoomFinishes(h.log, room);
      RoomActionKeeps(h, r, Finished(room));
  }

  lemma StartKeeps(log: seq<Op>, s: Sub)
    requires SubSound(log, s) && s.replay.Unstarted?
    ensures SubSound(log, s.(replay := Fetching(s.from, 0)))
  {
  }

  lemma EndPageKeeps(log: seq<Op>, s: Sub)
    requires SubSound(log, s) && s.replay.Streaming? && s.replay.rest == []
    ensures SubSound(log, s.(replay := if s.replay.short then Releasing(true)
                                       else Fetching(s.replay.cursor, s.replay.delivered)))
  {
  }

  lemma SubStepKeeps(h: Hub, a: Action)
    requires Inv(h) && Enabled(h, a)
    requires a.StartReplay? || a.Fetch? || a.Stream? || a.EndPage? || a.OpenGate?
    ensures Inv(Take(h, a))
  {
    var s := h.subs[a.u];
    assert SubSound(h.log, s);
    match a
    case StartReplay(u) =>
      StartKeeps(h.log, s);
      SubActionKeeps(h, u, s.(replay := Fetching(s.from, 0)));
    case Fetch(u, readOk) =>
      FetchKeeps(h.log, s, readOk);
      SubActionKeeps(h, u, Take(h, a).subs[u]);
    case Stream(u, accepts) =>
      StreamKeeps(h.log, s, accepts, h.maxResync);
      SubActionKeeps(h, u, Streamed(s, accepts, h.maxResync));
    case EndPage(u) =>
      EndPageKeeps(h.log, s);
      SubActionKeeps(h, u, Take(h, a).subs[u]);
    case OpenGate(u, verdicts) =>
      ReleaseKeeps(h.log, s, verdicts);
      SubActionKeeps(h, u, Release(s, verdicts));
  }

  lemma TakeKeeps(h: Hub, a: Action)
    requires Inv(h) && Enabled(h, a)
    ensures Inv(Take(h, a))
  {
    match a
    case Grow(log) => GrowKeeps(h, log);
    case Join(u, r, head, since) =>
      JoinedRooms(h, u, r, head, since);
      JoinedSubs(h, u, r, head, since);
      JoinedLinks(h, u, r, head, since);
    case Close(u) => CloseKeeps(h, u);
    case Send(r, u, accepts) => SendKeeps(h, r, u, accepts);
    case Receive(_, _) => ReadingStepKeeps(h, a);
    case GapTimer(_, _) => ReadingStepKeeps(h, a);
    case Reconcile(_) => ReadingStepKeeps(h, a);
    case Drain(_) => SendingStepKeeps(h, a);
    case Sent(_) => SendingStepKeeps(h, a);
    case StartReplay(_) => SubStepKeeps(h, a);
    case Fetch(_, _) => SubStepKeeps(h, a);
    case Stream(_, _) => SubStepKeeps(h, a);
    case EndPage(_) => SubStepKeeps(h, a);
    case OpenGate(_, _) => SubStepKeeps(h, a);
  }
}
