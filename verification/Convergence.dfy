/** What every recorded write keeps: the log folds to the entities there are, the log is gapless, a row's version counts its
    operations, every column shows the last write that named it, and the ledger adds up. */
module Convergence {
  import opened Outcomes
  import opened Domain
  import opened Folding
  import opened Tables
  import opened Ledger
  import opened Writes

  predicate Names(op: Op, e: Entity, id: ID) {
    EntityOf(op.kind) == e && op.entity == id
  }

  /** How many operations name an entity. */
  function History(log: seq<Op>, e: Entity, id: ID): nat {
    if log == [] then 0
    else History(log[..|log| - 1], e, id) + if Names(log[|log| - 1], e, id) then 1 else 0
  }

  /** The last operation to name a field of an entity. */
  function LastNaming(log: seq<Op>, e: Entity, id: ID, f: Field): (op: Option<Op>)
    ensures op.Some? ==> op.value in log && Names(op.value, e, id) && f in op.value.payload
  {
    if log == [] then None
    else
      var op := log[|log| - 1];
      if Names(op, e, id) && f in op.payload then Some(op) else LastNaming(log[..|log| - 1], e, id, f)
  }

  /** A ledger payload whose splits add up. */
  predicate LedgerPayload(p: Payload) {
    && AmountMinor in p && p[AmountMinor].Number?
    && Splits in p && p[Splits].SplitSet?
    && SplitsValid(p[AmountMinor].n, p[Splits].splits)
  }

  predicate OpWellFormed(op: Op) {
    && MaskValid(op.fields, op.kind)
    && op.payload.Keys == op.fields
    && (op.kind.BudgetSet? ==> LedgerPayload(op.payload))
  }

  predicate OpsWellFormed(log: seq<Op>) {
    forall i :: 0 <= i < |log| ==> OpWellFormed(log[i])
  }

  /** The committed sequence numbers are exactly 1..op_seq, in order. */
  predicate Gapless(db: Db) {
    |db.log| == db.rows.seqno && forall i :: 0 <= i < |db.log| ==> db.log[i].seqno == i + 1
  }

  /** The k-th operation on an entity carries version k. */
  predicate OpsVersioned(log: seq<Op>) {
    forall i :: 0 <= i < |log| ==> log[i].version == History(log[..i + 1], EntityOf(log[i].kind), log[i].entity)
  }

  function VersionAt(r: Replica, e: Entity, id: ID): nat {
    match Lookup(r, e, id)
    case Some(row) => Version(row)
    case None => 0
  }

  ghost predicate RowsVersioned(db: Db) {
    forall e, id :: VersionAt(db.rows, e, id) == History(db.log, e, id)
  }

  function RowOrBlank(r: Replica, e: Entity, id: ID): Row {
    match Lookup(r, e, id)
    case Some(row) => row
    case None => Blank(e, None)
  }

  /** What a stored column shows after a log: what it keeps of the last value it was given, or its blank. */
  function StoredRegister(log: seq<Op>, e: Entity, id: ID, f: Field): Option<Value> {
    match LastNaming(log, e, id, f)
    case Some(op) => Some(Kept(f, op.payload[f]))
    case None => Column(Blank(e, None), f)
  }

  /** What a folded column shows after a log: the value as the fold decodes it from the last operation naming it. */
  function FoldedRegister(log: seq<Op>, e: Entity, id: ID, f: Field): Option<Value> {
    match LastNaming(log, e, id, f)
    case Some(op) => Some(Folded(op)[f])
    case None => Column(Blank(e, None), f)
  }

  /** Every stored column is a last-writer-wins register over the log. */
  ghost predicate Registers(db: Db) {
    forall e, id, f :: f in Columns(e) ==> Column(RowOrBlank(db.rows, e, id), f) == StoredRegister(db.log, e, id, f)
  }

  /** Every folded column is one, too. */
  ghost predicate FoldedRegisters(r: Replica, log: seq<Op>) {
    forall e, id, f :: f in Columns(e) ==> Column(RowOrBlank(r, e, id), f) == FoldedRegister(log, e, id, f)
  }

  /** The two have the same entities, with the same authors and versions. */
  ghost predicate SameEntities(r: Replica, rows: Replica) {
    forall e, id ::
      && (Lookup(r, e, id).Some? <==> Lookup(rows, e, id).Some?)
      && Author(RowOrBlank(r, e, id)) == Author(RowOrBlank(rows, e, id))
      && VersionAt(r, e, id) == VersionAt(rows, e, id)
  }

  /** The log folds without an error, to the entities there are, each of whose columns shows the last write to it. */
  ghost predicate FoldFollows(db: Db) {
    && Fold(db.log).Ok?
    && var r := Fold(db.log).value;
       r.seqno == db.rows.seqno && SameEntities(r, db.rows) && FoldedRegisters(r, db.log)
  }

  /** At most one vote for each member and slot, and the index finds it. */
  ghost predicate BallotsMatch(db: Db) {
    && (forall k :: k in db.ballots ==>
          && db.ballots[k] in db.rows.votes
          && (db.rows.votes[db.ballots[k]].slotId, db.rows.votes[db.ballots[k]].userId) == k)
    && (forall v :: v in db.rows.votes ==>
          && (db.rows.votes[v].slotId, db.rows.votes[v].userId) in db.ballots
          && db.ballots[(db.rows.votes[v].slotId, db.rows.votes[v].userId)] == v)
  }

  predicate EntryBalances(e: Budget) {
    SplitsValid(e.amount, e.splits) && InUserOrder(e.splits)
  }

  predicate LedgerBalances(r: Replica) {
    forall id :: id in r.budgets ==> EntryBalances(r.budgets[id])
  }

  /** No two operations share a client operation id. */
  predicate ClientOpsUnique(log: seq<Op>) {
    forall i, j :: 0 <= i < j < |log| && log[i].clientOp.Some? ==> log[i].clientOp != log[j].clientOp
  }

  ghost predicate Sound(db: Db) {
    && Gapless(db)
    && FoldFollows(db)
    && OpsWellFormed(db.log)
    && OpsVersioned(db.log)
    && RowsVersioned(db)
    && Registers(db)
    && BallotsMatch(db)
    && LedgerBalances(db.rows)
  }

  ghost predicate Consistent(db: Db) {
    Sound(db) && ClientOpsUnique(db.log)
  }

  lemma EmptyIsConsistent()
    ensures Consistent(EMPTY_DB)
  {
  }

  // ----- writing a row and recording the operation that describes it -----

  predicate RowBalances(row: Row) {
    row.BudgetRow? ==> EntryBalances(row.entry)
  }

  /** The vote index agrees that this is the one vote of this member on this slot. */
  predicate BallotFits(db: Db, id: ID, row: Row) {
    row.VoteRow? ==>
      var k := (row.vote.slotId, row.vote.userId);
      if id in db.rows.votes then
        k == (db.rows.votes[id].slotId, db.rows.votes[id].userId) && k in db.ballots && db.ballots[k] == id
      else k !in db.ballots
  }

  /** A written row that a record of the given kind and mask accounts for in full. */
  ghost predicate Fits(db: Db, id: ID, row: Row, kind: OpKind, mask: FieldMask, actor: ID) {
    && TableOf(row) == EntityOf(kind)
    && MaskValid(mask, kind)
    && RowBalances(row)
    && BallotFits(db, id, row)
    && Version(row) == VersionAt(db.rows, TableOf(row), id) + 1
    && match Lookup(db.rows, TableOf(row), id)
       case Some(existing) => AgreeOutside(existing, row, mask)
       case None => Creates(kind) && AgreeOutside(Blank(TableOf(row), Some(actor)), row, mask)
  }

  /** The transaction's view once a drafted operation has its number and is appended. */
  function Logged(db: Db, op: Op): Db {
    db.(rows := db.rows.(seqno := op.seqno), log := db.log + [op])
  }

  lemma OpDescribes(call: Call, id: ID, row: Row, kind: OpKind, mask: FieldMask, first: bool, seqno: nat)
    requires TableOf(row) == EntityOf(kind) && MaskValid(mask, kind) && RowBalances(row)
    ensures DraftOf(kind, id, mask, row, first).payload.Some?
    ensures var op := OpOf(call, DraftOf(kind, id, mask, row, first), seqno);
      && Describes(op, row) && OpWellFormed(op) && forall f :: f in mask ==> Column(row, f) == Some(op.payload[f])
  {
    AllowedAreColumns(kind);
    PayloadExists(row, mask);
    if kind.BudgetSet? {
      assert Column(row, AmountMinor) == Some(Number(row.entry.amount));
      assert Column(row, Splits) == Some(SplitSet(row.entry.splits));
    }
  }

  /** The replica's row the operation lands on has the stored row's author and version, or is as blank. */
  lemma SameBefore(r: Replica, db: Db, id: ID, row: Row, op: Op, actor: ID)
    requires SameEntities(r, db.rows) && Fits(db, id, row, op.kind, op.fields, actor)
    requires op.entity == id && op.actor == Some(actor)
    ensures Author(Before(r, op)) == Author(row) && TableOf(Before(r, op)) == TableOf(row)
    ensures Lookup(r, TableOf(row), id).None? ==> Creates(op.kind)
    ensures forall f :: f in Columns(TableOf(row)) ==> Column(Before(r, op), f) == Column(RowOrBlank(r, TableOf(row), id), f)
  {
    var e := TableOf(row);
    assert Lookup(r, e, id).Some? <==> Lookup(db.rows, e, id).Some?;
    assert Author(RowOrBlank(r, e, id)) == Author(RowOrBlank(db.rows, e, id));
    forall f | f in Columns(e) ensures Column(Before(r, op), f) == Column(RowOrBlank(r, e, id), f) {
      BlankColumns(e, actor, f);
    }
  }

  /** Folding one more operation: its fields show what it carries, everything else is as it was. */
  lemma FoldKept(db: Db, id: ID, row: Row, op: Op, actor: ID)
    requires FoldFollows(db)
    requires Fits(db, id, row, op.kind, op.fields, actor)
    requires Describes(op, row) && op.entity == id && op.actor == Some(actor) && op.seqno == db.rows.seqno + 1
    ensures FoldFollows(AfterRecord(db, id, row, op))
  {
    var r := Fold(db.log).value;
    var landed := Landed(r, db, id, row, op, actor);
    SameEntitiesKept(r, db.rows, id, landed, KeptRow(row));
    RecordShape(db, id, row, op);
    FoldExtends(db, r, Put(r, id, landed), Put(db.rows, id, KeptRow(row)), op);
  }

  /** The row the fold of one more operation leaves. */
  lemma Landed(r: Replica, db: Db, id: ID, row: Row, op: Op, actor: ID) returns (landed: Row)
    requires SameEntities(r, db.rows) && FoldedRegisters(r, db.log) && r.seqno == db.rows.seqno
    requires Fits(db, id, row, op.kind, op.fields, actor)
    requires Describes(op, row) && op.entity == id && op.actor == Some(actor) && op.seqno == db.rows.seqno + 1
    ensures TableOf(landed) == TableOf(row) && Author(landed) == Author(row) && Version(landed) == Version(row)
    ensures Apply(r, op) == Applied(Put(r, id, landed).(seqno := op.seqno), None)
    ensures FoldedRegisters(Put(r, id, landed), db.log + [op])
  {
    SameBefore(r, db, id, row, op, actor);
    OpLands(r, op, row);
    landed := Lookup(Apply(r, op).replica, TableOf(row), id).value;
    FoldedKept(r, db.log, landed, op);
  }

  lemma FoldExtends(db: Db, r: Replica, folded: Replica, stored: Replica, op: Op)
    requires Fold(db.log) == Ok(r) && Apply(r, op) == Applied(folded.(seqno := op.seqno), None)
    requires SameEntities(folded, stored) && FoldedRegisters(folded, db.log + [op])
    ensures forall d: Db :: d.log == db.log + [op] && d.rows == stored.(seqno := op.seqno) ==> FoldFollows(d)
  {
    assert (db.log + [op])[..|db.log|] == db.log;
    SeqnoIsNoColumn(folded, op.seqno);
    SeqnoIsNoColumn(stored, op.seqno);
    assert SameEntities(folded.(seqno := op.seqno), stored.(seqno := op.seqno));
    assert FoldedRegisters(folded.(seqno := op.seqno), db.log + [op]);
  }

  lemma SameEntitiesKept(r: Replica, rows: Replica, id: ID, landed: Row, row: Row)
    requires SameEntities(r, rows)
    requires TableOf(landed) == TableOf(row) && Author(landed) == Author(row) && Version(landed) == Version(row)
    ensures SameEntities(Put(r, id, landed), Put(rows, id, row))
  {
    forall e, i
      ensures Lookup(Put(r, id, landed), e, i).Some? <==> Lookup(Put(rows, id, row), e, i).Some?
      ensures Author(RowOrBlank(Put(r, id, landed), e, i)) == Author(RowOrBlank(Put(rows, id, row), e, i))
      ensures VersionAt(Put(r, id, landed), e, i) == VersionAt(Put(rows, id, row), e, i)
    {
      PutThenLookup(r, id, landed, e, i);
      PutThenLookup(rows, id, row, e, i);
      assert Lookup(r, e, i).Some? <==> Lookup(rows, e, i).Some?;
    }
  }

  lemma FoldedKept(r: Replica, log: seq<Op>, landed: Row, op: Op)
    requires FoldedRegisters(r, log) && TableOf(landed) == EntityOf(op.kind)
    requires forall f :: f in Columns(TableOf(landed)) ==>
      Column(landed, f) == if f in op.payload then Some(Folded(op)[f]) else Column(RowOrBlank(r, TableOf(landed), op.entity), f)
    ensures FoldedRegisters(Put(r, op.entity, landed), log + [op])
  {
    assert (log + [op])[..|log|] == log;
    forall e, i, f | f in Columns(e)
      ensures Column(RowOrBlank(Put(r, op.entity, landed), e, i), f) == FoldedRegister(log + [op], e, i, f)
    {
      PutThenLookup(r, op.entity, landed, e, i);
      assert Column(RowOrBlank(r, e, i), f) == FoldedRegister(log, e, i, f);
    }
  }

  lemma VersionsKept(db: Db, id: ID, row: Row, op: Op)
    requires OpsVersioned(db.log) && RowsVersioned(db)
    requires TableOf(row) == EntityOf(op.kind) && op.entity == id && op.version == Version(row)
    requires Version(row) == VersionAt(db.rows, TableOf(row), id) + 1
    ensures OpsVersioned(db.log + [op])
    ensures forall e, i :: VersionAt(Put(db.rows, id, row), e, i) == History(db.log + [op], e, i)
  {
    var log := db.log + [op];
    assert log[..|db.log|] == db.log && log[..|log|] == log;
    forall e, i ensures VersionAt(Put(db.rows, id, row), e, i) == History(log, e, i) {
      PutThenLookup(db.rows, id, row, e, i);
      assert VersionAt(db.rows, e, i) == History(db.log, e, i);
    }
    forall k | 0 <= k < |log|
      ensures log[k].version == History(log[..k + 1], EntityOf(log[k].kind), log[k].entity)
    {
      if k < |db.log| {
        assert log[..k + 1] == db.log[..k + 1];
      } else {
        assert log[..k + 1] == log;
      }
    }
  }

  lemma RegisterIsKept(log: seq<Op>, e: Entity, id: ID, f: Field)
    requires f in Columns(e)
    ensures var v := StoredRegister(log, e, id, f); v.Some? && Kept(f, v.value) == v.value
  {
    match LastNaming(log, e, id, f)
    case Some(op) => KeptOnce(f, op.payload[f]);
    case None =>
      KeptColumns(Blank(e, None), f);
      assert KeptRow(Blank(e, None)) == Blank(e, None);
  }

  lemma KeptOnce(f: Field, v: Value)
    ensures Kept(f, Kept(f, v)) == Kept(f, v)
  {
  }

  lemma RegistersKept(db: Db, id: ID, row: Row, op: Op, actor: ID)
    requires Registers(db)
    requires Fits(db, id, row, op.kind, op.fields, actor)
    requires Describes(op, row) && op.entity == id && op.payload.Keys == op.fields
    requires forall f :: f in op.fields ==> Column(row, f) == Some(op.payload[f])
    ensures forall e, i, f :: f in Columns(e) ==>
      Column(RowOrBlank(Put(db.rows, id, KeptRow(row)), e, i), f) == StoredRegister(db.log + [op], e, i, f)
  {
    var log, stored := db.log + [op], Put(db.rows, id, KeptRow(row));
    assert log[..|db.log|] == db.log;
    forall e, i, f | f in Columns(e)
      ensures Column(RowOrBlank(stored, e, i), f) == StoredRegister(log, e, i, f)
    {
      PutThenLookup(db.rows, id, KeptRow(row), e, i);
      assert Column(RowOrBlank(db.rows, e, i), f) == StoredRegister(db.log, e, i, f);
      if e == TableOf(row) && i == id {
        KeptColumns(row, f);
        RegisterIsKept(db.log, e, i, f);
        BlankColumns(e, actor, f);
      }
    }
  }

  lemma BlankColumns(e: Entity, actor: ID, f: Field)
    requires f in Columns(e)
    ensures Column(Blank(e, Some(actor)), f) == Column(Blank(e, None), f)
  {
  }

  lemma BallotsKept(db: Db, id: ID, row: Row)
    requires BallotsMatch(db) && BallotFits(db, id, row)
    ensures BallotsMatch(Affect(db, PutRow(id, row)))
  {
  }

  /** Recording the operation that describes a row, once what the tables keep of that row is written, keeps everything
      Sound says. */
  lemma RecordKeepsSound(call: Call, db: Db, id: ID, row: Row, kind: OpKind, mask: FieldMask, first: bool)
    requires Sound(db) && Fits(db, id, row, kind, mask, call.actor)
    ensures DraftOf(kind, id, mask, row, first).payload.Some?
    ensures var written := Affect(db, PutRow(id, KeptRow(row)));
      Sound(Logged(written, OpOf(call, DraftOf(kind, id, mask, row, first), written.rows.seqno + 1)))
  {
    var written := Affect(db, PutRow(id, KeptRow(row)));
    assert written.rows.seqno == db.rows.seqno;
    OpDescribes(call, id, row, kind, mask, first, db.rows.seqno + 1);
    DescribedKeepsSound(db, id, row, OpOf(call, DraftOf(kind, id, mask, row, first), written.rows.seqno + 1), call.actor);
  }

  /** The transaction's view once what is kept of a row is written and an operation is recorded for it. */
  function AfterRecord(db: Db, id: ID, row: Row, op: Op): Db {
    Logged(Affect(db, PutRow(id, KeptRow(row))), op)
  }

  lemma RecordShape(db: Db, id: ID, row: Row, op: Op)
    ensures var after := AfterRecord(db, id, row, op);
      after.log == db.log + [op] && after.rows == Put(db.rows, id, KeptRow(row)).(seqno := op.seqno)
  {
  }

  lemma VersionsAfter(db: Db, id: ID, row: Row, op: Op)
    requires OpsVersioned(db.log) && RowsVersioned(db)
    requires TableOf(row) == EntityOf(op.kind) && op.entity == id && op.version == Version(row)
    requires Version(row) == VersionAt(db.rows, TableOf(row), id) + 1
    ensures OpsVersioned(db.log + [op]) && RowsVersioned(AfterRecord(db, id, row, op))
  {
    RecordShape(db, id, row, op);
    VersionsKept(db, id, KeptRow(row), op);
    SeqnoIsNoColumn(Put(db.rows, id, KeptRow(row)), op.seqno);
  }

  lemma RegistersAfter(db: Db, id: ID, row: Row, op: Op, actor: ID)
    requires Registers(db)
    requires Fits(db, id, row, op.kind, op.fields, actor)
    requires Describes(op, row) && op.entity == id && op.payload.Keys == op.fields
    requires forall f :: f in op.fields ==> Column(row, f) == Some(op.payload[f])
    ensures Registers(AfterRecord(db, id, row, op))
  {
    RecordShape(db, id, row, op);
    RegistersKept(db, id, row, op, actor);
    SeqnoIsNoColumn(Put(db.rows, id, KeptRow(row)), op.seqno);
    SameRegisters(Put(db.rows, id, KeptRow(row)), AfterRecord(db, id, row, op));
  }

  lemma BallotsAfter(db: Db, id: ID, row: Row, op: Op)
    requires BallotsMatch(db) && BallotFits(db, id, row)
    ensures BallotsMatch(AfterRecord(db, id, row, op))
  {
    BallotsKept(db, id, KeptRow(row));
    BallotsIgnoreLog(Affect(db, PutRow(id, KeptRow(row))), op);
  }

  lemma RestAfter(db: Db, id: ID, row: Row, op: Op)
    requires Gapless(db) && OpsWellFormed(db.log) && LedgerBalances(db.rows)
    requires RowBalances(row) && OpWellFormed(op) && op.seqno == db.rows.seqno + 1
    ensures var after := AfterRecord(db, id, row, op); Gapless(after) && OpsWellFormed(after.log) && LedgerBalances(after.rows)
  {
    RecordShape(db, id, row, op);
    LedgerKept(db.rows, id, KeptRow(row), op.seqno);
  }

  lemma DescribedKeepsSound(db: Db, id: ID, row: Row, op: Op, actor: ID)
    requires Sound(db) && Fits(db, id, row, op.kind, op.fields, actor)
    requires Describes(op, row) && OpWellFormed(op) && forall f :: f in op.fields ==> Column(row, f) == Some(op.payload[f])
    requires op.entity == id && op.actor == Some(actor) && op.seqno == db.rows.seqno + 1
    ensures Sound(AfterRecord(db, id, row, op))
  {
    RecordShape(db, id, row, op);
    FoldKept(db, id, row, op, actor);
    VersionsAfter(db, id, row, op);
    RegistersAfter(db, id, row, op, actor);
    BallotsAfter(db, id, row, op);
    RestAfter(db, id, row, op);
  }

  lemma BallotsIgnoreLog(written: Db, op: Op)
    requires BallotsMatch(written)
    ensures BallotsMatch(Logged(written, op))
  {
  }

  lemma SameRegisters(stored: Replica, after: Db)
    requires forall e, i, f :: f in Columns(e) ==> Column(RowOrBlank(stored, e, i), f) == StoredRegister(after.log, e, i, f)
    requires forall e, i :: Lookup(after.rows, e, i) == Lookup(stored, e, i)
    ensures Registers(after)
  {
  }

  lemma LedgerKept(r: Replica, id: ID, row: Row, n: nat)
    requires LedgerBalances(r) && RowBalances(row)
    ensures LedgerBalances(Put(r, id, row).(seqno := n))
  {
  }

  lemma SeqnoIsNoColumn(r: Replica, n: nat)
    ensures forall e, id :: Lookup(r.(seqno := n), e, id) == Lookup(r, e, id)
  {
  }
}
