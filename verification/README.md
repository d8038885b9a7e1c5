# Junto sync core: verification model

This project models the part of Junto that keeps a trip's collaborators in agreement, and proves what it promises:

* **Ordering keys** (`FracIntegers`, `FracMidpoint`, `FracKeys`, `FracBulk`): the base-62 strings that order lists; and which key is
  picked, and how fast keys grow (`FracExact`).
* **Operations and their fold** (`Domain`, `Replica`, `Lenses`, `Tables`, `Ledger`, `Projection`, `Applying`): the
  operation vocabulary, field masks, payloads built from rows, and the client replica.
* **Writes** (`Placement`, `Writes`, `Convergence`, `Transactions`, `Merging`, `Selections`, `Exactness`, `Buckets`,
  `Choices`, `TripStore`): the planning services, one SQL statement at a time, and as methods over tables changed in place; and how
  near the fold of the log comes to the database. `Effects` and `Acceptance` say of every call, without the statements that
  carry it out, when it commits, what it leaves and what it logs.
* **Concurrent writers** (`WriteMachine`, `Guarantees`, `Publication`, `Ballots`): transactions under the trip's row lock, with
  rollback, abort by the database, crash, commit, publication and resubmission as separate steps; what is answered and
  published; and what votes and ledger entries hold after any run.
* **Delivery** (`Delivery`, `DeliverySafety`, `Membership`, `Turns`, `Rooms`, `Gates`, `CatchUp`): rooms, gates, replay and
  subscribers over a transport that may lose, repeat and reorder, and who is in which room; and writers and subscribers
  together, from subscribing to being up to date (`LiveTrip`, `Arrivals`).
* **Sessions** (`Sessions`, `SessionSafety`, `SessionAnswers`, `SessionStore`): refresh-token rotation and revocation under races,
  and what every answer means.

`dafny verify dfyconfig.toml` checks everything.

## How to read the model

* One trip. A UUID is a number (`ID`), an instant a count of nanoseconds, a JSON payload a map from field to value, a
  field mask a set, a table a map. Integers are unbounded.
* `Writes.Db` is the committed state of a trip. Its rows are a `Folding.Replica` whose `seqno` is `trips.op_seq`, so the
  fold of the log and the database can be compared as they stand, tombstones and versions included.
* A `timestamptz` column keeps whole microseconds of an instant; the model cuts the rest, as the driver does when it
  encodes the instant (`Domain.ToMicro`).
* Decoding a field into a pointer variable that already points somewhere writes through it. `Folding.Decoded` says what the
  apply functions, which share such variables between fields, make of a payload; `Projections.DecodeCoordinates` does it
  with a cell and a pointer.
* Parameters stand for what the code gets from elsewhere: the verdict of the plain field validators and CHECK constraints
  (`Call.fieldsValid`), the membership list, the clock, freshly drawn identifiers, whether a log read succeeds, whether a
  sink accepts. Position length, foreign keys, unique indexes, version guards and the ledger's own demands are modelled.
* `WriteMachine`, `Delivery`, `LiveTrip` and `Sessions` are state machines. Their theorems are about `Run(actions)` or
  `Live(events)` for every list of steps; a step that is not enabled changes nothing. No statement step of `WriteMachine`
  is guarded by the lock: that transactions exclude each other is proved.
* A transaction's statements read the committed rows under its own effects (`WriteMachine.View`).
* In `Delivery` the inbox and the transport are one step, `Receive`: any published operation may reach an idle dispatcher
  at any time and any number of times. Broadcasting to each subscriber is its own step, so joins, closes and replays
  interleave with it.

## What is not as the comments have it

* `KeyBetween` with no lower bound and the upper bound `"A" + 25×'0' + "1"` returns the reserved value that
  `validateOrderKey` refuses. `FracKeys.KeyBetweenIsDense` says this is the only such input; `Buckets.SentinelJams` what
  it costs a list.
* `NKeysBetween` downwards can run out: `FracBulk.NKeysExactly` gives the exact number of keys there is room for.
* The comment on slot deletion describes a later edit being recorded on the tombstone. `getInTrip` reads live rows only,
  so the edit is refused (`Merging.ContentEditCommitsExactly`).
* The comment on `LockForWrite` says that reading before the lock would lose an update. The version guard turns that case
  into a refusal of a write that never stated a version (`WriteMachine.ReadingBeforeTheLockLosesTheEdit`); what really
  goes wrong silently is that two creates get one position (`Buckets.ReadingBeforeTheLockTies`).
* `SetSelectedOption` accepts a deleted option (`Selections.SelectCommitsExactly`), so a live slot can come to select one
  (`Choices.DeletedOptionCanBeChosen`); no other call can bring that about (`Choices.ChoiceStaysLiveExactly`). Deleting a
  slot leaves its options live, and deleting an option under a deleted slot is refused (`Selections.DeleteOptionExactly`,
  `Choices.OptionCanOutliveItsSlot`).
* The comments, and the convergence test, promise that the fold of the log equals the database. It does not in
  two ways. `applyOption` decodes both coordinates into one variable, so an option given latitude 48 and longitude 2 is
  folded to 2 and 2 (`Tables.LatitudeIsLost`, `Exactness.NewCoordinatesCollapse`); the convergence test compares no
  coordinates. And the delete methods log the clock's nanoseconds where the row keeps microseconds, so the tombstone they
  call exact is the row only when the instant is on a microsecond (`Transactions.TombstoneIsWrittenExactly`). Everything
  else agrees, always (`WriteMachine.FoldIsDatabase`), and the same theorem says exactly when these two do as well; what a
  caller has to keep to is `Exactness.Harmless`.
* A subscriber whose sink refuses a delivery is closed later, not at once, and may see a gap before that
  (`Turns.RefusalCanLeaveAGap`); and the gate opens after a failed replay too, with the same effect
  (`Turns.FailedReplayCanLeaveAGap`). `LiveTrip.EndToEnd` therefore promises "no gap" only while every delivery has been
  accepted and the replay has not failed, and "a correct prefix" always.
* A ledger edit that states version 0 is an insert to the repository, and never commits
  (`Merging.ZeroVersionIsAnInsert`).
* A deadlock or a serialization failure is reported as a version conflict, also to a writer that states no version.

## Model

| member | source | states |
|---|---|---|
| FracIntegers.IncrementInteger | pkg/fracdex/fracdex.go:391-421 | the carry loop over the digit buffer, with the header's change of length, computes the increment specification |
| FracIntegers.DecrementInteger | pkg/fracdex/fracdex.go:426-459 | the borrow loop over the digit buffer computes the decrement specification |
| FracIntegers.IncrementIsSuccessor | pkg/fracdex/fracdex.go:391-421 | incrementing a well-formed integer part adds one to its number, and fails exactly on the largest |
| FracIntegers.DecrementIsPredecessor | pkg/fracdex/fracdex.go:426-459 | decrementing subtracts one, and fails exactly on the smallest |
| FracIntegers.IncrementDecrementInverse | pkg/fracdex/fracdex.go:391-459 | y is x incremented if and only if x is y decremented |
| FracIntegers.OrdinalOrder | pkg/fracdex/fracdex.go:327-366 | byte order of well-formed integer parts is the order of their numbers, and distinct parts have distinct numbers |
| FracIntegers.OrdinalOnto | pkg/fracdex/fracdex.go:327-366 | every number of one integer interval is the number of a well-formed integer part |
| FracIntegers.IntegersPrefixFree | pkg/fracdex/fracdex.go:327-350 | no well-formed integer part is a proper prefix of another |
| FracIntegers.ExtremesBracket | pkg/fracdex/fracdex.go:327-366 | the reserved smallest and the largest part bracket all others in byte order |
| FracMidpoint.ScanPrefix | pkg/fracdex/fracdex.go:260-276 | the common-prefix loop finds the longest agreement with the lower bound padded by zeros |
| FracMidpoint.ComputeMidpoint | pkg/fracdex/fracdex.go:249-322 | the recursive midpoint, prefix loop included, computes the midpoint function |
| FracMidpoint.MidpointBetween | pkg/fracdex/fracdex.go:249-322 | it succeeds exactly on canonical fractions in order, and then gives a canonical fraction strictly between, at most one digit longer |
| FracKeys.KeyBetweenIsDense | pkg/fracdex/fracdex.go:79-167 | success exactly on ordered well-formed bounds; the result lies strictly between and is well formed except for one input; at most one byte longer than the longer bound |
| FracKeys.KeyBetweenErrors | pkg/fracdex/fracdex.go:79-115 | which error each unusable pair of bounds gets |
| FracKeys.SentinelIsADeadEnd | pkg/fracdex/fracdex.go:96-116 | the one exceptional input, and that nothing can be put below its result |
| FracExact.AppendExactly | pkg/fracdex/fracdex.go:118-135 | appending to a key gives the next integer part: no fraction, its number one more, the lowest integer part above the key; only above the largest does the fraction grow instead |
| FracExact.PrependExactly | pkg/fracdex/fracdex.go:98-116 | in front of a key comes the highest integer part below it: its own when it has a fraction, the one before otherwise; only at the smallest does the fraction shrink instead |
| FracExact.GapExactly | pkg/fracdex/fracdex.go:137-166 | between two keys comes the lowest integer part above the lower one whenever any lies between, and otherwise the midpoint of the fractions under the lower one's integer part |
| FracExact.AppendsCount | pkg/fracdex/fracdex.go:118-135 | the n-th append to an empty list is the integer part numbered n, as long as there are any |
| FracExact.AppendsStayShort | pkg/fracdex/fracdex.go:324-366 | its length is one header byte and as many base-62 digits as it takes to count to n |
| FracExact.AppendsAreLogarithmic | pkg/fracdex/fracdex.go:324-366 | so an appended key of length l took at least 62^(l-2) appends |
| FracExact.ManyAppendsFitFourBytes | pkg/fracdex/fracdex.go:118-135 | none of the first 242 234 appends is longer than four bytes |
| FracExact.BulkAppendsCount | pkg/fracdex/fracdex.go:188-202 | many keys above one, or into an empty list, are the consecutive integer parts that follow |
| FracExact.BisectionMiddle | pkg/fracdex/fracdex.go:224-242 | of n keys in a gap the one at n/2 is the key between the bounds, and the others fill the two gaps it leaves, in the same way |
| FracExact.BulkErrors | pkg/fracdex/fracdex.go:173-190 | a negative count is an error of its own; bounds that give no key give none in bulk, with the same error |
| FracExact.MidpointIsShortest | pkg/fracdex/fracdex.go:249-322 | no canonical fraction strictly between the bounds is shorter than the midpoint |
| FracExact.MidpointHalves | pkg/fracdex/fracdex.go:249-322 | the midpoint follows the zero-padded lower bound up to its last digit, which is halfway between that bound's digit and the ceiling there, rounded up |
| FracBulk.NKeysBetween | pkg/fracdex/fracdex.go:173-242 | the loops, recursion and in-place reversal compute the bulk-key function |
| FracBulk.ReverseInPlace | pkg/fracdex/fracdex.go:217-220 | the two-index swap loop reverses the array |
| FracBulk.BisectionFillsTheGap | pkg/fracdex/fracdex.go:224-242 | between two keys it never fails: n strictly ascending well-formed keys inside the gap, at most 1 + floor(log2 n) bytes longer than the longer bound |
| FracBulk.UpChainAscends | pkg/fracdex/fracdex.go:189-202 | with no upper bound it always succeeds, with n ascending well-formed keys above the bound |
| FracBulk.DownChainSucceeds | pkg/fracdex/fracdex.go:204-222 | with no lower bound it succeeds exactly while the chain does not step below the reserved value |
| FracBulk.NKeysExactly | pkg/fracdex/fracdex.go:173-242 | when bulk generation succeeds, for all bounds and counts, and that it then gives n ascending keys inside the bounds, all well formed save in one exactly stated case |
| Ledger.ComputeSplitTotal | internal/domain/budget.go:105-111 | the accumulating loop computes the sum of the splits |
| Ledger.Validate | internal/domain/budget.go:118-158 | each money complaint is raised if and only if the entry deserves it, and none at all if and only if the splits are valid |
| Ledger.SplitEvenly | internal/domain/budget.go:169-191 | the share loop computes the even split |
| Ledger.EvenSplitIsFair | internal/domain/budget.go:160-191 | the shares go to the members in order, sum exactly to the amount, differ by at most one and never increase along the list; they pass Validate exactly when the members are named and distinct |
| Domain.SortedIsPermutation | internal/domain/op.go:522-534 | the wire order of splits is by user and keeps every split |
| Folding.AssignAllMerges | internal/domain/op.go:826-900 | folding a masked payload gives the masked fields the payload's values and leaves all other fields alone |
| Lenses.SlotFolds | internal/domain/op.go:826-903 | folding a payload that some slot row shows gives a slot those fields and leaves every other field of it |
| Lenses.OptionFolds | internal/domain/op.go:905-963 | the same for options, once the payload is decoded |
| Lenses.DayFolds | internal/domain/op.go:1174-1207 | the same for days |
| Lenses.VoteFolds | internal/domain/op.go:965-989 | the same for votes |
| Lenses.BudgetFolds | internal/domain/op.go:997-1066 | the same for ledger entries, splits replaced whole |
| Tables.FoldedExactly | internal/domain/op.go:944-953 | of all operations the masks allow, only an option operation with two different coordinates has a value changed by a shared variable: its latitude becomes its longitude |
| Tables.OpLands | internal/domain/op.go:741-781 | applying an operation that describes a row always succeeds, and assigns exactly what it carries, as decoded, to the entity it names, whatever that held |
| Tables.FoldsToRow | internal/domain/op.go:741-781 | over a row that differs only in the masked fields, applying the operation leaves exactly the row it describes if and only if it does not carry two different coordinates |
| Tables.LatitudeIsLost | internal/domain/op.go:944-953 | an option created at 48 north, 2 east is folded to 2 north, 2 east |
| Applying.ApplyNext | internal/domain/op.go:741-781 | the next operation is refused exactly when it names an unknown entity it may not create, or carries a field of the entity in the wrong form; otherwise it is counted and its entity has its version; no other entity changes in any case |
| Applying.ApplyOutOfTurn | internal/domain/op.go:741-751 | out of turn nothing changes: redelivery is no error, a gap is |
| Projections.DecodeCoordinates | internal/domain/op.go:944-953 | the two decodings through one pointer variable leave what the decoded payload says |
| Projections.Projection.Apply | internal/domain/op.go:741-781 | the in-place replica skips redelivery, refuses a gap, folds the next operation, and keeps partial assignments on a decoding error |
| Projections.FoldLog | internal/domain/op.go:713-721 | the folding loop computes the fold or its first error |
| Convergence.RecordKeepsSound | internal/service/oplog.go:94-132 | recording the operation that describes a row, once the table keeps that row, keeps the log gapless and folding to the same entities, authors and versions, every stored and every folded column equal to the last write of it, versions equal to history lengths, the ledger balanced |
| Transactions.PlanFits | internal/service/slot.go:101-350 | whatever row a planned statement writes is what the table keeps of the row its record describes, and the record's mask accounts for that row in full |
| Transactions.TombstoneIsWrittenExactly | internal/service/slot.go:321-350 | the tombstone a deletion logs is the row it wrote if and only if its instant is on a microsecond |
| Transactions.NextKeeps | internal/service/oplog.go:70-132 | every single statement of every write keeps that soundness |
| Transactions.CommittedKeepsConsistent | internal/service/oplog.go:70-132 | after a committed write the log, grown by one operation or by an option deletion and its cascade, folds again to the entities there are, each column by its last write; only the first operation carries the client's id |
| Merging.VersionConflictExactly | internal/service/oplog.go:228-245 | a write is refused for its version exactly when it states one and the row it found has another |
| Merging.ContentEditCommitsExactly | internal/service/slot.go:166-222 | a slot or option edit commits exactly when mask and values are valid, the row is live, a stated version fits and the client id is new |
| Merging.EditAssigns | internal/service/slot.go:166-222 | a committed edit assigns exactly the fields it names and one version; no other row changes |
| Merging.BothEditsSurvive | internal/service/option.go:122-189 | of two edits of a row every field keeps the later value that named it, so disjoint edits both survive |
| Merging.ZeroVersionIsAnInsert | internal/repository/budget.go:64-80 | a ledger edit that states version 0 never commits, and fails on the existing id exactly when the entry is live and the ledger accepts the edit |
| Selections.SelectCommitsExactly | internal/service/slot.go:262-281 | when selecting an option commits; a tombstoned option of the slot is accepted |
| Selections.DeleteOptionExactly | internal/service/option.go:209-251 | when an option deletion commits, and that it leaves the option tombstoned, its slot not selecting it, everything else unchanged, and a second operation exactly when it was selected |
| Effects.CommittedLeaves | internal/service/slot.go:101-350 | every committed call leaves in the row it is about exactly what it was given: creates store their content, edits the fields they name, moves, selections and statuses theirs, deletions the time to the microsecond, votes the choice, ledger saves every field and the splits as a whole; author, version and all other rows as they should be |
| Effects.CommittedRecords | internal/service/oplog.go:99-132 | and logs one operation: its number, actor, client id, cause, kind, literal field set, version, and each field as the row shows it |
| Effects.DeletionRecords | internal/service/option.go:209-251 | an option deletion logs the deletion and, exactly when the option was its slot's, a second operation clearing the selection, with the same actor and cause and no client id |
| Acceptance.CommitsWhenAcceptable | internal/service/slot.go:101-350 | every kind of call commits if and only if its condition on the rows holds: row there, live and of the version stated; id new; mask within its set; day, slot, option and anchor there; date free; room for a position; splits valid among members; client id new |
| Acceptance.NotFoundExactly | internal/service/slot.go:366-380 | a call is refused as not found exactly when the row it works on or anchors to is missing or deleted, or it deletes an option under a deleted slot |
| Exactness.CommitsExactly | internal/service/oplog.go:70-132 | any call but an option deletion commits if and only if its reads find what they need, its statement is accepted and its client id is new; then it has put one row and logged one operation |
| Exactness.FoldAgrees | internal/service/oplog.go:94-132 | the fold of a consistent log is the database in every entity, column, author and version, latitudes and what is below a microsecond in deletion times set aside |
| Exactness.FoldIsRowsExactly | internal/domain/op.go:944-953 | it is the database in every respect if and only if no option's last named latitude was logged with another longitude and every deletion is on a microsecond |
| Exactness.CallKeepsTheFoldExactly | internal/service/option.go:68-184 | where the fold is the database, a committed call leaves it so if and only if it gives no option two different coordinates at once and deletes nothing off a microsecond |
| Exactness.NewCoordinatesCollapse | internal/service/option.go:68-100 | every committed option with both coordinates is stored with both and folded with the longitude twice |
| Placement.FirstExists | internal/repository/sqlcgen/slots.sql.go:81-88 | every non-empty list has a first place in (position, id) order |
| Buckets.KeySplits | internal/repository/slot.go:180-218 | a key made from the neighbours stands after everything up to the anchor and before everything later |
| Buckets.PositionExactly | internal/repository/slot.go:180-218 | when the neighbours yield a position, and when that position can be used again |
| Buckets.PlacedAfterAnchor | internal/service/slot.go:101-144 | a committed create or move puts the slot directly after its anchor and moves no other slot |
| Buckets.NothingInBetween | internal/service/slot.go:230-257 | no live slot of the bucket stands between the anchor and the slot placed after it |
| Buckets.DayPlacedAfterAnchor | internal/service/day.go:69-103 | a committed create or move puts the day directly after its anchor and moves no other day |
| Buckets.NoDayInBetween | internal/service/day.go:163-193 | no live day stands between the anchor and the day placed after it |
| Buckets.SlotPlacingCommitsExactly | internal/service/slot.go:101-144 | when creating or moving a slot commits: new, or live under the version stated; day and anchor there; room for a key of at most 128 bytes behind the anchor; new client id |
| Buckets.DayPlacingCommitsExactly | internal/service/day.go:69-103 | the same for days, whose date must be free besides |
| Buckets.CommitWithin | pkg/fracdex/fracdex.go:79-167 | no committed call makes any live position more than a byte longer than the longest there was |
| Buckets.CapIsFarOff | pkg/fracdex/fracdex.go:79-167 | from positions of at most n bytes none of the next 128 - n calls, wherever they insert, can be refused by the column's 128-byte cap |
| Buckets.EveryListIsOrdered | internal/repository/sqlcgen/slots.sql.go:459-470 | in every reachable state live positions are well formed or the reserved value, and distinct within each bucket and among the days |
| Buckets.SentinelJams | pkg/fracdex/fracdex.go:96-116 | with the reserved value in front, nothing can be inserted first or directly behind it |
| Buckets.ReadingBeforeTheLockTies | internal/service/slot.go:94-112 | two creates that read before either wrote would share a position |
| Choices.EverySelectionIsOwned | internal/service/slot.go:262-281 | in every reachable state every selected option exists and belongs to the slot that selects it |
| Choices.ChoiceStaysLiveExactly | internal/service/slot.go:262-281 | where no live slot selects a deleted option, a committed call keeps it so if and only if it does not select a deleted option |
| Choices.CarefulRunsBuryNone | internal/service/option.go:209-251 | in every run whose committed calls select no option deleted by then, no live slot selects a deleted option |
| Choices.DeletedOptionCanBeChosen | internal/service/slot.go:262-281 | a run after which a live slot selects a deleted option |
| Choices.OptionCanOutliveItsSlot | internal/service/option.go:232-238 | a run after which a live option stands under a deleted slot, where no deletion of it is accepted |
| WriteMachine.EveryRun | internal/service/oplog.go:70-92 | the invariant of the write machine holds after every list of steps |
| WriteMachine.FoldIsDatabase | internal/service/oplog.go:94-132 | in every reachable state the log folds, and its fold is the database but for latitudes and nanoseconds; it is the database if and only if the log is faithful |
| WriteMachine.HarmlessRunsFold | internal/service/oplog.go:94-132 | in every state reached by harmless calls alone the fold of the log is the database |
| WriteMachine.VisibleLogIsGapless | internal/repository/sqlcgen/ops.sql.go:162-208 | in every reachable state the committed log is numbered 1..op_seq and holds everything published |
| WriteMachine.ReadsSeePrefixes | internal/repository/sqlcgen/ops.sql.go:112-130 | a log read earlier is a prefix of one read later |
| WriteMachine.RefinesSerial | internal/service/oplog.go:70-92 | every interleaving has the effect of the committed calls run one after another in commit order |
| WriteMachine.SerialRuns | internal/service/oplog.go:70-92 | conversely, every list of calls that commit one after another is the history of some run, which reaches their database |
| WriteMachine.OnlyTheHolderRuns | internal/repository/trip.go:95-111 | at most one transaction is past the lock |
| WriteMachine.VersionlessNeverConflicts | internal/service/oplog.go:228-245 | in no interleaving does a write that states no version fail for one, or is it answered so; only the database giving a transaction up is reported the same way |
| WriteMachine.AtMostOnce | internal/syncengine/engine.go:278-328 | of all submits sharing a client id at most one is committed, and one operation carries the id |
| WriteMachine.ResubmitChangesNothing | internal/syncengine/engine.go:293-328 | a submit whose id is in the log is answered with that operation and changes nothing, at the first check and after losing the race |
| WriteMachine.ReadingBeforeTheLockLosesTheEdit | internal/repository/trip.go:95-111 | an edit that read before another's commit and wrote after it would be refused, where the same edit reading after commits |
| Guarantees.LedgerNeverDrifts | internal/domain/op.go:997-1066 | at every prefix of every reachable log each folded entry has no splits or valid splits summing exactly to its amount |
| Guarantees.VersionIsHistoryLength | internal/service/option.go:226-248 | the k-th operation on an entity carries version k, and the stored version counts them |
| Guarantees.LastWriterWins | internal/domain/op.go:741-781 | of all operations naming a field the highest numbered supplies its value, to the table as far as the column keeps it and to the fold as decoded; a field never named is blank in both |
| Guarantees.OneVoteEach | internal/repository/sqlcgen/votes.sql.go:14-23 | a member has at most one vote on a slot |
| Ballots.VoteCommitsExactly | internal/service/vote.go:57-87 | a cast vote commits exactly when its slot is live, its choice is none or an option of that slot, and its ids are new where they must be |
| Ballots.CommittedVote | internal/repository/sqlcgen/votes.sql.go:14-23 | it leaves the member one vote on the slot, for the choice just made, under the id first cast with, one version on; nothing else changes |
| Ballots.CommittedVoteLogged | internal/service/oplog.go:206-216 | it logs one operation carrying slot, member and that choice |
| Ballots.VoteIsLastCast | internal/repository/sqlcgen/votes.sql.go:14-23 | in every reachable state a member's vote on a slot is the choice of the last vote it committed there, and there is none before the first |
| Ballots.EntryIsLastSaved | internal/repository/budget.go:56-132 | in every reachable state a ledger entry holds exactly what it was last saved with, every field and the splits as a whole |
| Publication.AcceptedIsPublished | internal/service/oplog.go:70-92 | a call answered as accepted has committed, its answer is exactly what its commit added to the log, and all of it has been published, in order |
| Publication.RefusedAsAlone | internal/service/oplog.go:70-92 | a write is rolled back for the reason it would be if it ran alone on what is then committed |
| Publication.SubmitAlone | internal/syncengine/engine.go:278-328 | from any reachable state whose lock is free a call left to itself is answered as it would run alone: with the operation already logged, with what it adds, or with why it is refused |
| TripStores.TripStore.SlotBounds | internal/repository/slot.go:180-218 | the neighbour lookup over the slot table |
| TripStores.TripStore.UpdateSlotRow | internal/repository/slot.go:86-155 | the four guarded slot updates in place: the row they leave, or the reason they miss |
| TripStores.TripStore.CastRow | internal/repository/vote.go:32-52 | the vote upsert in place: the choice is stored, under the existing row's id and next version or as a new vote; no other vote changes |
| TripStores.TripStore.SaveEntry | internal/repository/budget.go:56-132 | a ledger entry is inserted or updated whole under its version: every field as given, the splits as a multiset in user order; no other entry changes |
| TripStores.TripStore.Record | internal/service/oplog.go:99-132 | a number is taken and the operation appended, or the mask or an index refuses it |
| TripStores.TripStore.RecordSlotState | internal/service/slot.go:352-364 | the logged fields come from the row as re-read |
| TripStores.TripStore.ValidateEntry | internal/service/budget.go:234-260 | the validation loop accepts exactly valid splits among members |
| TripStores.TripStore.ClearSelection | internal/service/option.go:232-248 | the cascade of an option deletion |
| TripStores.TripStore.Write | internal/service/oplog.go:70-92 | a call leaves the trip as running it alone would, or exactly as it was, and answers with the operations the log gained; consistency is kept |
| DeliverySafety.TakeKeeps | internal/syncengine/room.go:113-235 | every delivery step keeps the invariants of rooms, gates, replays and subscribers |
| DeliverySafety.OfferKeeps | internal/syncengine/gate.go:49-63 | a gate that is offered what it expects holds or passes on a contiguous stretch of the log |
| DeliverySafety.ReleaseKeeps | internal/syncengine/gate.go:72-92 | flushing after a complete replay leaves no gap unless something is refused |
| DeliverySafety.StreamKeeps | internal/syncengine/engine.go:215-233 | each replayed operation is the next one of the log |
| LiveTrip.ClientPasses | internal/domain/op.go:741-751 | whatever operations of the log reach a client, it only passes through the log's own states, and errs exactly on one too far ahead |
| LiveTrip.MemberUntilClosed | internal/syncengine/broker.go:318-345 | from its join until it is closed a subscription starts where its client asked, the trip has a room, it is the one joined, and the subscription is among its members |
| Membership.TakePlaces | internal/syncengine/broker.go:387-404 | every delivery step keeps: a subscription is among its room's members exactly while it has not been closed, its room is then the trip's, and the trip's room is never empty |
| LiveTrip.EndToEnd | internal/syncengine/engine.go:148-239 | under every interleaving a subscriber holds the fold of the log up to its number; clean and with no failed replay it never errs; caught up it agrees with the database but for latitudes and nanoseconds, and holds its very rows if and only if the log is faithful |
| LiveTrip.NeverBehindItsRoom | internal/syncengine/gate.go:72-92 | after a successful replay a clean subscriber that has not been closed is in the trip's room and has counted everything the room has broadcast |
| LiveTrip.EveryRoomIsOrdered | internal/syncengine/room.go:113-213 | a room has broadcast exactly the log after its head, in order; what it holds lies further on; holding anything, its gap timer is armed |
| Turns.TurnIsARun | internal/syncengine/room.go:113-180 | a whole turn of a dispatcher, from an arrival, its timer or a reconciliation until it is idle, is a run of delivery steps, however the subscribers answer |
| Turns.SettledIs | internal/syncengine/room.go:169-180 | a turn broadcasts up to the first operation not held, keeps the rest, and settles the timer |
| Turns.RefusalCanLeaveAGap | internal/syncengine/room.go:96-103 | a run in which a live subscriber refuses one operation, accepts the next, and sees a gap |
| Turns.FailedReplayCanLeaveAGap | internal/syncengine/engine.go:202-209 | a run in which a replay fails at its first read and the gate opens on a gap |
| Rooms.Dispatcher.Drain | internal/syncengine/room.go:169-180 | the drain loop emits exactly the contiguous operations it holds |
| Rooms.Dispatcher.Fill | internal/syncengine/room.go:191-213 | a fill holds what the page brings and drains |
| Rooms.Dispatcher.OnInbox | internal/syncengine/room.go:142-153 | one turn of the dispatcher on an arriving operation, duplicate, late or early; it is the protocol's turn |
| Rooms.Dispatcher.OnGapTimer | internal/syncengine/room.go:156-158 | the gap timer fills the hole from the log; it is the protocol's turn |
| Rooms.Dispatcher.OnReconcile | internal/syncengine/room.go:221-235 | a reconcile that finds the trip ahead moves the room on by a page or to the end; it is the protocol's turn, or none |
| Rooms.FillReaches | internal/syncengine/room.go:191-213 | a successful fill moves next at least to the end of the log or a page on, and never past the end |
| Rooms.QuietLogIsCaughtUp | internal/syncengine/room.go:191-235 | with every broadcast lost, a room's turns of reconciliation bring it to the end of a quiet log, one for each page behind, and leave it holding nothing |
| Rooms.QuietRoomCatchesUp | internal/syncengine/room.go:221-235 | from any sound state those turns are a run of the delivery protocol, whatever the subscribers answer |
| CatchUp.RoomCatchesUp | internal/syncengine/room.go:169-235 | from any point of a turn a room has broadcast a whole quiet log after one reconciliation for each page it was behind |
| CatchUp.ReplayIsARun | internal/syncengine/engine.go:200-239 | a replay with no more to deliver than it may, whose reads succeed and whose sink accepts, ends without an error |
| CatchUp.ListenerCatchesUp | internal/syncengine/room.go:221-235 | a subscriber past its replay that accepts what it is offered has counted a quiet log after the room's reconciliations, whatever the others answer |
| Arrivals.CanJoinExactly | internal/syncengine/engine.go:158-178 | with the present head a client can subscribe if and only if it is not ahead of it and at most maxResync behind, or names no number |
| Arrivals.ListenerGetsEverything | internal/syncengine/room.go:215-235 | in any reachable state, with nothing more written and every publication lost, such a subscriber's client comes to hold the fold of the whole log without an error |
| Arrivals.JoinerGetsEverything | internal/syncengine/engine.go:148-239 | whoever can subscribe does: by its replay and the room's reconciliations its client goes from the number it gave to the fold of the whole log |
| Gates.Gate.Deliver | internal/syncengine/gate.go:49-63 | buffers at most 1024 events while closed, presence included, and passes through once open; on operations it is the protocol's offer |
| Gates.Gate.Release | internal/syncengine/gate.go:77-92 | flushes in order past refusals, and opens; with no refusal the sink has the whole buffer; it is the protocol's release |
| Gates.ReplayFrom | internal/syncengine/engine.go:200-239 | at most maxResync + 1 deliveries against any growth of the log; no error only when everything up to a read's end was accepted; the gate opens in any case |
| SessionSafety.OneChain | internal/service/auth.go:308-362 | in every reachable state a session's tokens form one chain without repetition ending in its only unused token |
| SessionSafety.ExchangedOnce | internal/repository/session.go:121-136 | a token is exchanged at most once, however many calls race for it |
| SessionSafety.ReuseRevokes | internal/service/auth.go:292-306 | a call that finds a token used, or loses the race for it, leaves the session revoked when the revoking write succeeds |
| SessionSafety.RevocationIsPermanent | internal/repository/sqlcgen/sessions.sql.go:250-254 | a revocation keeps its first time and reason for ever |
| SessionSafety.RevokedStaysOut | internal/service/auth.go:595-616 | no Refresh and no Authenticate that starts after the revocation succeeds for the session |
| SessionAnswers.EveryAnswerIsTrue | internal/service/auth.go:277-400 | in every reachable state each answer is true: exchanged only before token and session run out, the successor lasting from then; expired, consumed or invalid only if so; logging out, revoking and resetting leave the sessions revoked, for the reason of the call; only its owner revokes a session or is let in, while it lasts |
| SessionAnswers.RefreshAlone | internal/service/auth.go:277-378 | with no competing call a refresh exchanges its token exactly when that is known, unused, unexpired and of an active session; it answers a used one by revoking the session, and refuses every other with nothing changed |
| SessionAnswers.LogoutAlone | internal/service/auth.go:380-400 | logging out with any known token revokes its session, and succeeds quietly with an unknown one |
| SessionAnswers.RevokeAlone | internal/service/auth.go:569-589 | a session is revoked on request of its owner alone |
| SessionAnswers.RevokeAllAlone | internal/service/auth.go:466-528 | a password reset revokes every session of the user that still stands, and no other |
| SessionAnswers.AuthenticateAlone | internal/service/auth.go:595-616 | access is granted exactly to the owner of a session neither revoked nor over |
| SessionAnswers.OpenAlone | internal/service/auth.go:620-645 | opening adds the session and its first token, each with its own lifetime |
| SessionStores.SessionStore.MarkRefreshTokenUsed | internal/repository/session.go:121-136 | the guarded update consumes a token once |
| SessionStores.SessionStore.RevokeSession | internal/repository/session.go:73-83 | the guarded update revokes a session once and keeps the first reason |
| SessionStores.SessionStore.RotateRefreshToken | internal/service/auth.go:329-350 | insert the successor, consume the old token, or undo both |

## Left out

- Attachments: deleting a failed upload logs a removal for an entity never announced, and the sweeper changes rows without the lock or the log, so the fold equation is not true of that code.
- Comments: append-only, the same pattern as the other entities.
- More than one trip: the checks that a row belongs to the trip named in a request, authorization, and trip deletion.
- created_at, updated_at, operation ids and split ids, which the fold does not set.
- JSON encoding and the decoding of intents; a payload value is already typed, and a decoding error is a value of the wrong type. A null for a text or a plain number, which no row produces and which would leave the previous field's value, counts as one.
- The cutting of a `date` column's instants to days: what such a column returns is what the log and the row both have.
- int64 overflow in sums of splits: the source does not check it, the model uses unbounded integers.
- Plain field validators and CHECK constraints on single fields, which enter as one verdict per call; the order in which one insert reports several violations.
- The deferred database trigger on ledger sums: the model proves the writes never need it.
- Presence events, except that they take room in a closed gate's buffer; peer channel joins and leaves, logging, timeouts and cancellation; timers are steps that may happen at any time.
- The bounded inbox of a room: overflow is one way for the lossy transport to lose an operation.
- Expiry purging of tokens and sessions, and the last-used time that TouchSession sets.
- Refresh, Logout, RevokeSession and Authenticate as methods: their races are what matters, so they are steps of `Sessions`; the tables they change in place are `SessionStore`.
- Writes.Plan: the reads before a write's first statement (the row, and up to two neighbour queries) are one step; under the lock no other writer can come between them.
- Delivery.ListSince: a page is a slice of the log, which is what the query returns because the log is numbered without gaps (`WriteMachine.VisibleLogIsGapless`).
- The service methods of days, options, votes and the ledger are split in `TripStore` into what they read, one shared write-and-record step and the cascade, rather than kept as one method each.
