/** The gate that holds live events back during a replay, and the replay itself (internal/syncengine/gate.go, engine.go
    replayFrom). A sink may refuse any delivery. */
module Gates {
  import opened Outcomes
  import opened Domain
  import D = Delivery
  import opened Delivery
  import opened DeliverySafety

  /** What a room broadcasts: a committed operation, or a notice of who is there. */
  datatype Event = Committed(op: Op) | Presence

  /** The operations among events. */
  function Ops(events: seq<Event>): (ops: seq<Op>)
    ensures |ops| <= |events|
  {
    if events == [] then []
    else
      var last := events[|events| - 1];
      Ops(events[..|events| - 1]) + if last.Committed? then [last.op] else []
  }

  /** A sink, and the operations it has accepted. */
  class Sink {
    ghost var got: seq<Op>

    constructor ()
      ensures got == []
    {
      got := [];
    }

    /** Accepts an event or refuses it. */
    method Deliver(ev: Event) returns (ok: bool)
      modifies this
      ensures got == if ok && ev.Committed? then old(got) + [ev.op] else old(got)
    {
      ok := *;
      if ok && ev.Committed? {
        got := got + [ev.op];
      }
    }
  }

  /** The operations whose delivery was accepted. */
  function Accepted(events: seq<Event>, verdicts: seq<bool>): seq<Op>
    requires |events| == |verdicts|
  {
    if events == [] then []
    else
      var n := |events| - 1;
      Accepted(events[..n], verdicts[..n]) + if verdicts[n] && events[n].Committed? then [events[n].op] else []
  }

  lemma {:induction false} AllAccepted(events: seq<Event>, verdicts: seq<bool>)
    requires |events| == |verdicts| && false !in verdicts
    ensures Accepted(events, verdicts) == Ops(events)
  {
    if events != [] {
      var n := |events| - 1;
      assert verdicts[n] in verdicts;
      AllAccepted(events[..n], verdicts[..n]);
    }
  }

  /** The verdicts on operations alone. */
  function OpVerdicts(events: seq<Event>, verdicts: seq<bool>): (r: seq<bool>)
    requires |events| == |verdicts|
    ensures |r| == |Ops(events)|
  {
    if events == [] then []
    else
      var n := |events| - 1;
      OpVerdicts(events[..n], verdicts[..n]) + if events[n].Committed? then [verdicts[n]] else []
  }

  function Verdict(verdicts: seq<bool>): nat -> bool {
    (i: nat) => i < |verdicts| && verdicts[i]
  }

  lemma {:induction false} FlushAgrees(s: Sub, ops: seq<Op>, f: nat -> bool, g: nat -> bool)
    requires forall i: nat :: i < |ops| ==> f(i) == g(i)
    ensures Flush(s, ops, f) == Flush(s, ops, g)
  {
    if ops != [] {
      FlushAgrees(s, ops[..|ops| - 1], f, g);
    }
  }

  /** What a flush hands on, as the delivery protocol has it: the accepted operations, and a clean record while no operation
      is refused. */
  lemma {:induction false} FlushGot(s: Sub, events: seq<Event>, verdicts: seq<bool>)
    requires |events| == |verdicts|
    ensures var t := Flush(s, Ops(events), Verdict(OpVerdicts(events, verdicts)));
      t.got == s.got + Accepted(events, verdicts) && t.clean == (s.clean && false !in OpVerdicts(events, verdicts))
  {
    if events != [] {
      var n := |events| - 1;
      FlushGot(s, events[..n], verdicts[..n]);
      var ops, v := Ops(events[..n]), OpVerdicts(events[..n], verdicts[..n]);
      if events[n].Committed? {
        FlushSnoc(s, ops, events[n].op, v, verdicts[n]);
      } else {
        assert Ops(events) == ops && OpVerdicts(events, verdicts) == v;
      }
    }
  }

  lemma {:induction false} FlushSnoc(s: Sub, ops: seq<Op>, op: Op, v: seq<bool>, ok: bool)
    requires |v| == |ops|
    ensures var before, t := Flush(s, ops, Verdict(v)), Flush(s, ops + [op], Verdict(v + [ok]));
      t.got == before.got + (if ok then [op] else []) && t.clean == (before.clean && ok)
  {
    assert (ops + [op])[..|ops|] == ops;
    FlushAgrees(s, ops, Verdict(v), Verdict(v + [ok]));
  }

  class Gate {
    const sink: Sink
    var open: bool
    var buf: seq<Event>

    /** The gate and its sink are those of a subscription of the delivery protocol, presence set aside. */
    ghost predicate Is(s: Sub)
      reads this, sink
    {
      open == s.open && Ops(buf) == s.buffer && sink.got == s.got
    }

    constructor (target: Sink)
      ensures sink == target && !open && buf == []
    {
      sink, open, buf := target, false, [];
    }

    /** Closed, it buffers up to GATE_BUFFER events and refuses the rest; open, the sink decides. On an operation it is the
        protocol's Offer; a presence event is nothing to the protocol. */
    method Deliver(ev: Event, ghost s: Sub) returns (ok: bool)
      modifies this, sink
      ensures old(Is(s)) ==> Is(if ev.Committed? then Offer(s, ev.op, ok) else s)
      ensures old(Is(s)) && ev.Committed? ==> Offer(s, ev.op, ok).clean == (s.clean && ok)
      ensures open == old(open)
      ensures !open ==> ok == (|old(buf)| < GATE_BUFFER) && sink.got == old(sink.got)
      ensures !open ==> buf == if ok then old(buf) + [ev] else old(buf)
      ensures open ==> buf == old(buf) && sink.got == if ok && ev.Committed? then old(sink.got) + [ev.op] else old(sink.got)
    {
      if open {
        ok := sink.Deliver(ev);
        return;
      }
      if |buf| >= GATE_BUFFER {
        return false;
      }
      assert (buf + [ev])[..|buf|] == buf;
      buf := buf + [ev];
      return true;
    }

    /** Flushes the buffer in order, going on after a refusal, and opens whatever happens. It is the protocol's Release; with
        no refusal the sink has the whole buffer. */
    method Release(ghost s: Sub) returns (failed: bool, ghost verdicts: seq<bool>)
      modifies this, sink
      ensures open && (old(open) ==> sink.got == old(sink.got) && buf == old(buf) && !failed && verdicts == [])
      ensures !old(open) ==>
        && buf == [] && |verdicts| == |old(buf)|
        && sink.got == old(sink.got) + Accepted(old(buf), verdicts)
        && (failed <==> false in verdicts)
        && (!failed ==> sink.got == old(sink.got) + Ops(old(buf)))
      ensures old(Is(s)) && !old(open) && s.replay.Releasing? ==>
        var v := OpVerdicts(old(buf), verdicts);
        var t := D.Release(s, Verdict(v)); Is(t) && t.clean == (s.clean && false !in v)
    {
      failed, verdicts := false, [];
      if open {
        return;
      }
      for i := 0 to |buf|
        invariant !open && buf == old(buf) && |verdicts| == i
        invariant sink.got == old(sink.got) + Accepted(buf[..i], verdicts)
        invariant failed <==> false in verdicts
      {
        var ok := sink.Deliver(buf[i]);
        ghost var before := verdicts;
        verdicts := verdicts + [ok];
        assert buf[..i + 1][..i] == buf[..i] && verdicts[..i] == before;
        if !ok {
          failed := true;
        }
      }
      assert buf[..|buf|] == buf;
      FlushGot(s, buf, verdicts);
      if !failed {
        AllAccepted(buf, verdicts);
      }
      buf := [];
      open := true;
    }
  }

  datatype ReplayError = ReadFailed | DeliveryRefused | ResyncRequired

  /** Successive reads of a log that only grows; a read may fail. */
  predicate Growing(snapshots: seq<Option<seq<Op>>>) {
    forall i, j :: 0 <= i <= j < |snapshots| && snapshots[i].Some? && snapshots[j].Some? ==>
      snapshots[i].value <= snapshots[j].value
  }

  /** The replay: pages of the log straight to the sink, then the gate is opened whatever happened. snapshots are the log
      as each read finds it. It ends after at most maxResync + 1 deliveries however fast the log grows; it returns no
      error only if the sink has accepted, in order, everything after from that the log held at some read of it. */
  method ReplayFrom(gate: Gate, from: nat, maxResync: nat, snapshots: seq<Option<seq<Op>>>)
      returns (error: Option<ReplayError>, ghost replayed: seq<Op>, ghost last: nat)
    requires !gate.open && Growing(snapshots) && |snapshots| > maxResync / PAGE
    requires forall i :: 0 <= i < |snapshots| && snapshots[i].Some? ==> Numbered(snapshots[i].value) && from <= |snapshots[i].value|
    modifies gate, gate.sink
    ensures gate.open && gate.buf == []
    ensures last < |snapshots| && |replayed| <= maxResync + 1
    ensures Stretch(snapshots, last, from, replayed)
    ensures error.None? ==> snapshots[last].Some? && from + |replayed| == |snapshots[last].value|
    ensures error == Some(ResyncRequired) ==> |replayed| == maxResync + 1
    ensures exists verdicts: seq<bool> | |verdicts| == |old(gate.buf)| ::
              gate.sink.got == old(gate.sink.got) + replayed + Accepted(old(gate.buf), verdicts)
  {
    error, replayed, last := StreamPages(gate.sink, from, maxResync, snapshots);
    var failed;
    ghost var verdicts;
    ghost var s := Sub(0, from, false, Ops(gate.buf), Releasing(true), gate.sink.got, from, false, true, 1, 1, 0, false);
    failed, verdicts := gate.Release(s);
  }

  /** One page of the replay: in order, up to the first refusal or one operation too many. */
  method StreamPage(sink: Sink, ghost log: seq<Op>, from: nat, start: nat, ops: seq<Op>, maxResync: nat)
      returns (error: Option<ReplayError>, cursor: nat)
    requires Numbered(log) && from <= start <= start + |ops| <= |log| && ops == log[start..start + |ops|]
    requires start - from <= maxResync
    modifies sink
    ensures start <= cursor <= start + |ops| && cursor - from <= maxResync + 1
    ensures sink.got == old(sink.got) + log[start..cursor]
    ensures error.None? ==> cursor == start + |ops| && cursor - from <= maxResync
    ensures error == Some(ResyncRequired) ==> cursor - from == maxResync + 1
  {
    cursor := start;
    var delivered := start - from;
    assert log[start..start] == [];
    for i := 0 to |ops|
      invariant cursor == start + i && delivered == cursor - from <= maxResync
      invariant sink.got == old(sink.got) + log[start..cursor]
    {
      assert ops[i] == log[cursor];
      assert log[start..cursor + 1] == log[start..cursor] + [log[cursor]];
      var ok := sink.Deliver(Committed(ops[i]));
      if !ok {
        return Some(DeliveryRefused), cursor;
      }
      cursor := ops[i].seqno;
      delivered := delivered + 1;
      if delivered > maxResync {
        return Some(ResyncRequired), cursor;
      }
    }
    return None, cursor;
  }

  /** What a replay has handed on: a stretch of the log as its last read found it. */
  predicate Stretch(snapshots: seq<Option<seq<Op>>>, last: nat, from: nat, replayed: seq<Op>) {
    replayed != [] ==>
      && last < |snapshots| && snapshots[last].Some? && from + |replayed| <= |snapshots[last].value|
      && replayed == snapshots[last].value[from..from + |replayed|]
  }

  /** One read of the replay: the page after the cursor, handed on. */
  method StreamRead(sink: Sink, from: nat, start: nat, maxResync: nat, snapshots: seq<Option<seq<Op>>>, page: nat,
                    ghost last: nat, ghost replayed: seq<Op>)
      returns (error: Option<ReplayError>, cursor: nat, short: bool, ghost now: seq<Op>)
    requires Growing(snapshots) && last <= page < |snapshots| && snapshots[page].Some?
    requires Numbered(snapshots[page].value) && from <= |snapshots[page].value|
    requires from <= start && start - from <= maxResync && |replayed| == start - from
    requires Stretch(snapshots, last, from, replayed)
    modifies sink
    ensures from <= cursor <= |snapshots[page].value| && cursor - from <= maxResync + 1
    ensures now == snapshots[page].value[from..cursor] && Stretch(snapshots, page, from, now)
    ensures replayed <= now && sink.got == old(sink.got) + now[|replayed|..]
    ensures error.None? ==> cursor - from <= maxResync
    ensures error.None? && short ==> cursor == |snapshots[page].value|
    ensures error.None? && !short ==> cursor == start + PAGE
    ensures error == Some(ResyncRequired) ==> cursor - from == maxResync + 1
  {
    ghost var log := snapshots[page].value;
    GrownRead(snapshots, last, page, from, start, replayed);
    var ops := ListSince(snapshots[page].value, start);
    PageInLog(log, start);
    error, cursor := StreamPage(sink, log, from, start, ops, maxResync);
    short := |ops| < PAGE;
    now := log[from..cursor];
    Lengthened(snapshots, page, from, start, cursor);
  }

  method StreamPages(sink: Sink, from: nat, maxResync: nat, snapshots: seq<Option<seq<Op>>>)
      returns (error: Option<ReplayError>, ghost replayed: seq<Op>, ghost last: nat)
    requires Growing(snapshots) && |snapshots| > maxResync / PAGE
    requires forall i :: 0 <= i < |snapshots| && snapshots[i].Some? ==> Numbered(snapshots[i].value) && from <= |snapshots[i].value|
    modifies sink
    ensures last < |snapshots| && |replayed| <= maxResync + 1
    ensures Stretch(snapshots, last, from, replayed)
    ensures error.None? ==> snapshots[last].Some? && from + |replayed| == |snapshots[last].value|
    ensures error == Some(ResyncRequired) ==> |replayed| == maxResync + 1
    ensures sink.got == old(sink.got) + replayed
  {
    var cursor, page := from, 0;
    replayed, last, error := [], 0, None;
    while true
      invariant page < |snapshots| && last <= page && from <= cursor && page * PAGE <= cursor - from <= maxResync
      invariant |replayed| == cursor - from && sink.got == old(sink.got) + replayed
      invariant Stretch(snapshots, last, from, replayed)
      decreases |snapshots| - page
    {
      if snapshots[page].None? {
        return Some(ReadFailed), replayed, last;
      }
      var short;
      ghost var before := replayed;
      error, cursor, short, replayed := StreamRead(sink, from, cursor, maxResync, snapshots, page, last, replayed);
      assert replayed == before + replayed[|before|..];
      last := page;
      if error.Some? || short {
        return error, replayed, last;
      }
      page := page + 1;
    }
  }

  /** What a page adds to what the log has yielded. */
  lemma Lengthened(snapshots: seq<Option<seq<Op>>>, page: nat, from: nat, start: nat, cursor: nat)
    requires page < |snapshots| && snapshots[page].Some? && from <= start <= cursor <= |snapshots[page].value|
    ensures var log := snapshots[page].value;
      log[from..cursor] == log[from..start] + log[start..cursor] && Stretch(snapshots, page, from, log[from..cursor])
  {
    var log := snapshots[page].value;
    assert log[from..cursor] == log[from..from + |log[from..cursor]|];
  }

  /** What an earlier read has yielded, a later one has too. */
  lemma GrownRead(snapshots: seq<Option<seq<Op>>>, last: nat, page: nat, from: nat, cursor: nat, replayed: seq<Op>)
    requires Growing(snapshots) && last <= page < |snapshots| && snapshots[page].Some? && from <= cursor
    requires from <= |snapshots[page].value| && |replayed| == cursor - from
    requires Stretch(snapshots, last, from, replayed)
    ensures cursor <= |snapshots[page].value| && replayed == snapshots[page].value[from..cursor]
  {
  }
}
