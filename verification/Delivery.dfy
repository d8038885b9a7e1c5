/** One trip's delivery protocol, step by step: rooms that order and repair the broadcast, gates that hold it back during
    a replay, and subscribers that fold what they are given (internal/syncengine room.go, gate.go, engine.go Subscribe and
    replayFrom, broker.go). The transport may lose, repeat and reorder at will; sinks may refuse at will. */
module Delivery {
  import opened Outcomes
  import opened Domain

  type SubId = nat
  type RoomId = nat

  const GATE_BUFFER := 1024
  const PAGE := 1000

  // ----- the log -----

  /** What the write protocol guarantees of the committed log: numbered 1.. without a gap. */
  predicate Numbered(log: seq<Op>) {
    forall i :: 0 <= i < |log| ==> log[i].seqno == i + 1
  }

  /** ListSince: the operations after a sequence number, in order, at most a page. In a log numbered without gaps those
      are a slice. */
  function ListSince(log: seq<Op>, after: nat): seq<Op> {
    if after >= |log| then []
    else if after + PAGE < |log| then log[after..after + PAGE]
    else log[after..]
  }

  predicate InLog(log: seq<Op>, op: Op) {
    1 <= op.seqno <= |log| && log[op.seqno - 1] == op
  }

  // ----- rooms -----

  /** disarms: the drain follows a delivery, after which an empty room stops its gap timer. */
  datatype Mode =
    | Idle
    | Draining(disarms: bool)
    | Sending(op: Op, targets: set<SubId>, disarms: bool)

  /** A room's dispatcher. head and sent are ghosts: where the room's stream started, and what it has broadcast. */
  datatype Room = Room(next: nat, pending: map<nat, Op>, armed: bool, members: set<SubId>, mode: Mode,
                       head: nat, sent: seq<Op>)

  function NewRoom(head: nat, member: SubId): Room {
    Room(head + 1, map[], false, {member}, Idle, head, [])
  }

  /** pending takes every listed operation not yet broadcast. */
  function Holding(next: nat, pending: map<nat, Op>, ops: seq<Op>): map<nat, Op> {
    if ops == [] then pending
    else
      var p := Holding(next, pending, ops[..|ops| - 1]);
      var op := ops[|ops| - 1];
      if op.seqno >= next then p[op.seqno := op] else p
  }

  function Targets(room: Room): set<SubId> {
    if room.mode.Sending? then room.mode.targets else {}
  }

  /** The next operation the room will offer a subscriber. */
  function Expect(room: Room, u: SubId): nat {
    if room.mode.Sending? && u !in room.mode.targets then room.next + 1 else room.next
  }

  // ----- subscribers -----

  datatype Replay =
    | Unstarted
    | Fetching(cursor: nat, delivered: nat)
    | Streaming(cursor: nat, rest: seq<Op>, short: bool, delivered: nat)
    | Releasing(ok: bool)
    | Ended(ok: bool)

  /** A subscription: its gate, its replay, and what its sink has accepted, in order. count is the last sequence number
      the client folding those has reached, and sawGap whether it has met one too far ahead. clean: no delivery has been
      refused. closed: it has been closed. first, offered and joinHead are ghosts: the first operation the room offers it, the
      next one, and how long the log was when it joined. */
  datatype Sub = Sub(room: RoomId, from: nat, open: bool, buffer: seq<Op>, replay: Replay, got: seq<Op>, count: nat,
                     sawGap: bool, clean: bool, first: nat, offered: nat, joinHead: nat, closed: bool)

  /** The sink accepts an operation; the client skips one it has counted, counts the next, and balks at any other. */
  function Accept(s: Sub, op: Op): Sub {
    s.(got := s.got + [op], count := if op.seqno == s.count + 1 then op.seqno else s.count,
       sawGap := s.sawGap || op.seqno > s.count + 1)
  }

  /** gate.Deliver: buffer while closed, pass through once open. Presence events, which are not modelled here, share the
      closed gate's buffer, so it may refuse an operation before it holds GATE_BUFFER of them, but never takes one more. */
  function Offer(s: Sub, op: Op, accepts: bool): Sub {
    if !accepts then s.(clean := false)
    else if s.open then Accept(s, op).(offered := op.seqno + 1)
    else if |s.buffer| < GATE_BUFFER then s.(buffer := s.buffer + [op], offered := op.seqno + 1)
    else s.(clean := false)
  }

  /** gate.release hands the sink everything buffered, in order, going on after a refusal. */
  function Flush(s: Sub, ops: seq<Op>, accepts: nat -> bool): Sub {
    if ops == [] then s
    else
      var before := Flush(s, ops[..|ops| - 1], accepts);
      if accepts(|ops| - 1) then Accept(before, ops[|ops| - 1]) else before.(clean := false)
  }

  function Release(s: Sub, accepts: nat -> bool): Sub
    requires s.replay.Releasing?
  {
    Flush(s, s.buffer, accepts).(buffer := [], open := true, replay := Ended(s.replay.ok))
  }

  /** One replayed operation handed to the sink; refused, or one too many, it ends the replay with an error. */
  function Streamed(s: Sub, accepts: bool, maxResync: nat): Sub
    requires s.replay.Streaming? && s.replay.rest != []
  {
    var op, n := s.replay.rest[0], s.replay.delivered + 1;
    if !accepts then s.(clean := false, replay := Releasing(false))
    else if n > maxResync then Accept(s, op).(replay := Releasing(false))
    else Accept(s, op).(replay := Streaming(op.seqno, s.replay.rest[1..], s.replay.short, n))
  }

  // ----- the whole -----

  datatype Hub = Hub(log: seq<Op>, maxResync: nat, rooms: map<RoomId, Room>, current: Option<RoomId>, subs: map<SubId, Sub>)

  datatype Action =
    | Grow(log: seq<Op>)                                   // more operations are committed
    | Join(u: SubId, r: RoomId, head: nat, since: Option<nat>)
    | Close(u: SubId)
    | Receive(r: RoomId, k: nat)                           // any committed operation, from any transport, at any time
    | GapTimer(r: RoomId, readOk: bool)
    | Reconcile(r: RoomId)
    | Drain(r: RoomId)
    | Send(r: RoomId, u: SubId, accepts: bool)
    | Sent(r: RoomId)
    | StartReplay(u: SubId)
    | Fetch(u: SubId, readOk: bool)
    | Stream(u: SubId, accepts: bool)
    | EndPage(u: SubId)
    | OpenGate(u: SubId, verdicts: nat -> bool)

  /** Subscribe refuses a client that is ahead of the head it read, or too far behind it. */
  predicate Serviceable(h: Hub, head: nat, since: Option<nat>) {
    head <= |h.log| && (since.Some? ==> since.value <= head && head - since.value <= h.maxResync)
  }

  function NewSub(h: Hub, r: RoomId, from: nat, first: nat): Sub {
    Sub(r, from, false, [], Unstarted, [], from, false, true, first, first, |h.log|, false)
  }

  predicate Enabled(h: Hub, a: Action) {
    match a
    case Grow(log) => h.log <= log && Numbered(log)
    case Join(u, r, head, since) =>
      && u !in h.subs && Serviceable(h, head, since)
      && (if h.current.Some? then r == h.current.value && r in h.rooms else r !in h.rooms)
    case Close(u) => u in h.subs
    case Receive(r, k) => r in h.rooms && h.rooms[r].mode.Idle? && k < |h.log|
    case GapTimer(r, _) => r in h.rooms && h.rooms[r].mode.Idle? && h.rooms[r].armed
    case Reconcile(r) => r in h.rooms && h.rooms[r].mode.Idle? && h.rooms[r].next >= 1
    case Drain(r) => r in h.rooms && h.rooms[r].mode.Draining?
    case Send(r, u, _) => r in h.rooms && h.rooms[r].mode.Sending? && u in h.rooms[r].mode.targets && u in h.subs
    case Sent(r) => r in h.rooms && h.rooms[r].mode.Sending? && h.rooms[r].mode.targets == {}
    case StartReplay(u) => u in h.subs && h.subs[u].replay.Unstarted?
    case Fetch(u, _) => u in h.subs && h.subs[u].replay.Fetching?
    case Stream(u, _) => u in h.subs && h.subs[u].replay.Streaming? && h.subs[u].replay.rest != []
    case EndPage(u) => u in h.subs && h.subs[u].replay.Streaming? && h.subs[u].replay.rest == []
    case OpenGate(u, _) => u in h.subs && h.subs[u].replay.Releasing?
  }

  /** The dispatcher takes an operation off its inbox. */
  function Received(room: Room, op: Op): Room {
    room.(pending := if op.seqno >= room.next then room.pending[op.seqno := op] else room.pending, mode := Draining(true))
  }

  /** The gap timer fires: with something held, read the log from the hole. */
  function Filled(room: Room, log: seq<Op>, readOk: bool): Room {
    var r := room.(armed := false, mode := Draining(false));
    if room.pending != map[] && readOk && room.next >= 1
    then r.(pending := Holding(room.next, room.pending, ListSince(log, room.next - 1))) else r
  }

  function Reconciled(room: Room, log: seq<Op>): Room
    requires room.next >= 1
  {
    room.(pending := Holding(room.next, room.pending, ListSince(log, room.next - 1)), mode := Draining(false))
  }

  /** One turn of drain's loop: start broadcasting the operation that is due, or stop and settle the timer. */
  function Drained(room: Room): Room
    requires room.mode.Draining?
  {
    if room.next in room.pending then
      room.(pending := room.pending - {room.next}, mode := Sending(room.pending[room.next], room.members, room.mode.disarms))
    else
      room.(armed := if room.pending != map[] then true else if room.mode.disarms then false else room.armed, mode := Idle)
  }

  function Finished(room: Room): Room
    requires room.mode.Sending?
  {
    room.(next := room.next + 1, sent := room.sent + [room.mode.op], mode := Draining(room.mode.disarms))
  }

  function Joined(h: Hub, u: SubId, r: RoomId, head: nat, since: Option<nat>): Hub
    requires Enabled(h, Join(u, r, head, since))
  {
    var from := if since.Some? then since.value else head;
    var room := if h.current.Some? then h.rooms[r].(members := h.rooms[r].members + {u}) else NewRoom(head, u);
    h.(rooms := h.rooms[r := room], current := Some(r), subs := h.subs[u := NewSub(h, r, from, Expect(room, u))])
  }

  /** Subscription.Close; the room that loses its last member leaves the broker's map. */
  function Closed(h: Hub, u: SubId): Hub
    requires u in h.subs
  {
    var r, subs := h.subs[u].room, h.subs[u := h.subs[u].(closed := true)];
    if h.current != Some(r) || r !in h.rooms then h.(subs := subs)
    else
      var room := h.rooms[r].(members := h.rooms[r].members - {u});
      h.(rooms := h.rooms[r := room], current := if room.members == {} then None else h.current, subs := subs)
  }

  function Take(h: Hub, a: Action): Hub
    requires Enabled(h, a)
  {
    match a
    case Grow(log) => h.(log := log)
    case Join(u, r, head, since) => Joined(h, u, r, head, since)
    case Close(u) => Closed(h, u)
    case Receive(r, k) => h.(rooms := h.rooms[r := Received(h.rooms[r], h.log[k])])
    case GapTimer(r, readOk) => h.(rooms := h.rooms[r := Filled(h.rooms[r], h.log, readOk)])
    case Reconcile(r) => h.(rooms := h.rooms[r := Reconciled(h.rooms[r], h.log)])
    case Drain(r) => h.(rooms := h.rooms[r := Drained(h.rooms[r])])
    case Send(r, u, accepts) =>
      var room := h.rooms[r];
      h.(rooms := h.rooms[r := room.(mode := room.mode.(targets := room.mode.targets - {u}))],
         subs := h.subs[u := Offer(h.subs[u], room.mode.op, accepts)])
    case Sent(r) => h.(rooms := h.rooms[r := Finished(h.rooms[r])])
    case StartReplay(u) => h.(subs := h.subs[u := h.subs[u].(replay := Fetching(h.subs[u].from, 0))])
    case Fetch(u, readOk) =>
      var s := h.subs[u];
      var page := ListSince(h.log, s.replay.cursor);
      var replay := if readOk then Streaming(s.replay.cursor, page, |page| < PAGE, s.replay.delivered) else Releasing(false);
      h.(subs := h.subs[u := s.(replay := replay)])
    case Stream(u, accepts) => h.(subs := h.subs[u := Streamed(h.subs[u], accepts, h.maxResync)])
    case EndPage(u) =>
      var s := h.subs[u];
      var replay := if s.replay.short then Releasing(true) else Fetching(s.replay.cursor, s.replay.delivered);
      h.(subs := h.subs[u := s.(replay := replay)])
    case OpenGate(u, verdicts) => h.(subs := h.subs[u := Release(h.subs[u], verdicts)])
  }

  // ----- invariants -----

  predicate PendingSound(log: seq<Op>, room: Room) {
    && (forall k :: k in room.pending ==> 1 <= k <= |log| && room.pending[k] == log[k - 1])
    && (forall k :: k in room.pending ==> if room.mode.Draining? then k >= room.next else k > room.next)
  }

  /** The room invariant: what has been broadcast is exactly the log from the head up to next, in order; whatever is held
      lies beyond next; and an idle room that holds something has its gap timer armed. */
  predicate RoomSound(log: seq<Op>, room: Room) {
    && room.head < room.next <= |log| + 1
    && room.sent == log[room.head..room.next - 1]
    && PendingSound(log, room)
    && (room.mode.Idle? && room.pending != map[] ==> room.armed)
    && (room.mode.Sending? ==> room.next <= |log| && room.mode.op == log[room.next - 1])
  }

  predicate ReplayFailed(replay: Replay) {
    replay == Releasing(false) || replay == Ended(false)
  }

  predicate ReplaySound(log: seq<Op>, s: Sub) {
    && s.open == s.replay.Ended?
    && match s.replay
       case Unstarted => s.count == s.from
       case Fetching(cursor, _) => s.count == cursor
       case Streaming(cursor, rest, short, _) =>
         && s.count == cursor
         && cursor + |rest| <= |log| && rest == log[cursor..cursor + |rest|]
         && (short ==> cursor + |rest| >= s.joinHead)
       case Releasing(ok) => ok ==> s.count >= s.joinHead
       case Ended(ok) => ok && s.clean ==> s.count + 1 >= s.offered
  }

  /** While everything has been accepted, what the gate holds is one contiguous stretch of the log. */
  predicate GateSound(log: seq<Op>, s: Sub) {
    && 1 <= s.first <= s.joinHead + 1 && s.first <= s.offered <= |log| + 1
    && (!s.open ==> s.buffer == log[s.first - 1..s.offered - 1])
  }

  predicate AllInLog(log: seq<Op>, ops: seq<Op>) {
    forall i :: 0 <= i < |ops| ==> InLog(log, ops[i])
  }

  predicate SubSound(log: seq<Op>, s: Sub) {
    && s.from <= s.joinHead <= |log| && s.from <= s.count <= |log|
    && ReplaySound(log, s)
    && AllInLog(log, s.buffer) && AllInLog(log, s.got)
    && (s.clean ==> GateSound(log, s))
    && (s.clean && !ReplayFailed(s.replay) ==> !s.sawGap)
  }

  /** A room is about to offer each of its subscribers exactly what that subscriber's gate expects. */
  predicate Linked(room: Room, u: SubId, s: Sub) {
    s.clean && (u in room.members || u in Targets(room)) ==> s.offered == Expect(room, u)
  }

  ghost predicate MembersKnown(h: Hub, r: RoomId, room: Room) {
    forall u :: u in room.members || u in Targets(room) ==> u in h.subs && h.subs[u].room == r
  }

  ghost predicate RoomsSound(h: Hub) {
    forall r :: r in h.rooms ==> RoomSound(h.log, h.rooms[r]) && MembersKnown(h, r, h.rooms[r])
  }

  ghost predicate SubsSound(h: Hub) {
    forall u :: u in h.subs ==> SubSound(h.log, h.subs[u]) && h.subs[u].room in h.rooms
  }

  ghost predicate LinksSound(h: Hub) {
    forall u :: u in h.subs && h.subs[u].room in h.rooms ==> Linked(h.rooms[h.subs[u].room], u, h.subs[u])
  }

  ghost predicate Inv(h: Hub) {
    && Numbered(h.log) && RoomsSound(h) && SubsSound(h) && LinksSound(h)
    && (h.current.Some? ==> h.current.value in h.rooms)
  }
}
