# Models of golly-aws: lease electors, single-flight loading, the S3 directory view, SQS listeners

This project models four parts of the repository and proves what they promise.
`dafny verify dfyconfig.toml` checks all of it.

## How the models are built

**Lease electors** (`chrono/s3lock`, `chrono/dynamolock`). Any number of electors
share one stored record. `S3LockProtocol` and `DynamoLockProtocol` are transition
systems with one step per backend call taking effect, per answer reaching its caller
and per assignment to an elector's own fields. `Next` is total (a step that is not
enabled changes nothing), so a theorem about `Exec(s, run)` speaks about every run.
Calls may fail before or after taking effect. In s3lock every request ever sent may
take effect at any later time and any number of times; ETags are opaque, non-empty, and
equal tags name equal bodies. In dynamolock a put takes effect, possibly more than once,
only while its caller waits: its `owner = us` condition would let an old put of the same
owner shorten the lease. The delete of Resign may take effect at any later time, also
after Resign has returned. The table may delete an outdated item at any moment by its own
clock. Clocks never go back; how far they are apart is a hypothesis of the theorems that
need it. `LeaseRegister` is the abstract object both implementations are proved to
refine, `Cadence` is the rhythm both tick to, and `S3LockTiming` and `DynamoLockTiming` say
what a lease of three times `Lease` is worth. `S3LockElector` and
`DynamoLockElector` hold the `Elector` objects in the form of the source: methods that
update the fields and call the backend, proved to be runs of the transition system while
the rest of the world moves in between. So every theorem about runs holds of the objects
(`ObjectsExclude` shows this for exclusion).

**Single-flight loading** (`cache/elasticache`). `SingleFlight` is the transition system
of `GetOrLoad`: one step per cache operation, per critical section and per step of a
call's own, with removal and replacement of cached values by others at any moment.
`SingleFlightTheorems` proves its guarantees; `SingleFlightClient` is the client object
whose methods are proved to make those steps, in the order the source gives them.

**The S3 directory view** (`s3`). A bucket is a map from keys to bytes, listings come
sorted and cut into arbitrary pages. `S3Keys` has the key order and prefixes,
`S3Directory` says what copies and deletes should achieve and `S3Move` what moves
should; `S3CopyTrace` follows a copy, and `S3DeleteTrace` a recursive delete, child by
child in listing order; `S3FileSystem` proves the recursive loops against them,
`S3Listing` describes delimited listings and `S3Lister` proves the listing loops and the
lazy iterator.

**SQS listeners** (`sqs`). `SqsRegistry` is the registry as a value with the account of
every listener, `SqsProvider` keeps it in a map of slices over backing arrays that
removal compacts in place.

## What the proofs show about the code

- Two raw `IsLeader` flags at once are reachable in s3lock and in dynamolock (`TwoFlags`
  in `S3LockFlags` and `DynamoLockFlags`). What the code guarantees is exclusion on
  leases (`Exclusion` in both packages).
- `DeleteAll` succeeds if and only if its key is not empty and no marker strictly below
  the directory has a non-marker key below it (`S3FS.DeleteAll`; `UntidyExample` is a
  bucket it fails on). Otherwise an entry of the outer listing is already gone when its
  turn comes and `Info` fails on it, and the delete stops there (`S3DeleteTrace.Stopped`
  says exactly what is gone by then). `s3/README.md` promises a recursive delete without
  that condition; the model follows the code.
- A directory named without its trailing slash keeps its own marker (`S3FS.DeleteAll`).
- `DeleteAll` of the empty key empties the bucket if it is tidy and then ends with the
  SDK's error for an empty key.
- `Move` of an object onto itself deletes it (`S3FS.Move`); anywhere else it is kept.
- `Move` of a directory to itself or into itself deletes it: the copies land below the
  source and go with it. The delete stops early, with an error, exactly when a marker
  strictly below the source has an object below it or gets a copy below it (`S3FS.Move`).
- A directory that a move empties arrives whole if and only if no object of it lands
  strictly below it (`S3Move.DirMoved`). Moving `a/b/` to `a/` copies `a/b/b/x` to `a/b/x`,
  deletes both keys and reports success: the object is lost (`LosingExample`).
- `Move` of an unslashed directory one of whose objects lands on the source's own key
  deletes that key alone, reports success and leaves the source: `a/b` moved to `a` with the
  object `a/b/b` (`UnslashedExample`).
- `Copy` of a tidy directory whose markers get no copies below them is the promised copy if
  and only if no object lands on one listed later with other bytes (`CopyMade`). Copying
  `a/b/` to `a/` overwrites `a/b/x` with `a/b/b/x` before it is copied (`OverwritingExample`).

## Model

| member | source | states |
|---|---|---|
| LeaseRegister.DeadlineOnlyGrows | chrono/s3lock/s3lock.go:237-256 | along any legal operations without a release the deadline never moves back, and it moves strictly forward when the holder changes |
| Cadence.Interval | chrono/s3lock/s3lock.go:167-170 | the ticker period is half the lease, rounded down, and the whole lease where that is zero |
| Cadence.FirstStart | chrono/s3lock/s3lock.go:171-180 | with starts one gap apart, the first start at or after a deadline comes less than one gap after it |
| S3LockSafety.ExecInv | chrono/s3lock/s3lock.go:59-75 | every step of every run keeps the invariant of backend, requests in flight and electors |
| S3LockTheorems.StepRefines | chrono/s3lock/s3lock.go:201-255 | each step is at most one guarded atomic register operation: a put, however late, commits only where the record is absent, its writer's own or expired at the reading taken when its tick started, and a delete removes only its elector's own record |
| S3LockTheorems.RunRefines | chrono/s3lock/s3lock.go:194-260 | every run is a legal run of the lease register and ends in the register the stored document stands for |
| S3LockTheorems.LeaseOnlyGrows | chrono/s3lock/s3lock.go:238-244 | between creation and deletion the stored lease never decreases, and strictly increases across owners, whatever the clocks do |
| S3LockTheorems.Exclusion | chrono/s3lock/s3lock.go:194-260 | with clocks at most d apart, at most one elector outside Resign has its flag set and an acknowledged lease later than its clock plus d, and the stored document is then its own with a lease at least as late |
| S3LockTheorems.OnlyOwnerCommits | chrono/s3lock/s3lock.go:237-244 | against a lease still ahead of its holder's clock plus the skew no other elector commits |
| S3LockTheorems.HolderStability | chrono/s3lock/s3lock.go:237-259 | while a holder renews in time, every commit of the run is its own and the object stays its own and ahead of its clock; another elector's flag goes up only to settle an acknowledgement that was on its way before the run, so with none on its way it never goes up, and if it was down it stays down |
| S3LockTheorems.ResignIsFinal | chrono/s3lock/s3lock.go:96-147 | once Resign of a started elector is over its flag is down in every later state, Start included |
| S3LockTheorems.FlagHoldsLastETag | chrono/s3lock/s3lock.go:64-69 | in every reachable state a set flag comes with a non-empty held ETag, that of the last acknowledged write, which stored a document of this elector |
| S3LockFlags.SecondFlag | chrono/s3lock/s3lock.go:212-215 | beside any other raised flag, one fault-free tick of a challenger raises a second exactly when the record is absent, the challenger's own or run out on its clock |
| S3LockFlags.TwoFlags | chrono/s3lock/s3lock.go:111-113 | from every start with an absent object any two electors can have their raw flags up together |
| S3LockTakeover.FaultFreeOutcome | chrono/s3lock/s3lock.go:194-260 | after an undisturbed tick the elector leads exactly when the record was absent, its own or expired at the tick's start, and the record then ends that start plus three times Lease; otherwise the record is as before |
| S3LockTakeover.Waiting | chrono/s3lock/s3lock.go:257-259 | ticks that start before the stored lease ends leave the record and keep the challenger out |
| S3LockTakeover.BoundedTakeover | chrono/s3lock/s3lock.go:165-260 | against a silent holder the challenger is not leader after any tick that starts before the lease ends and is leader after the first that does not, which starts less than one interval after that end |
| S3LockTiming.RenewalMargin | chrono/s3lock/s3lock.go:165-202 | a holder whose next tick starts at most one interval after this one starts it with at least two leases left |
| S3LockTiming.TakeoverAfterTick | chrono/s3lock/s3lock.go:165-260 | a holder whose last tick starts at t and then falls silent is replaced not before t plus three leases, and by a tick that starts less than one interval of the challenger after that |
| S3LockTiming.CorruptIsTaken | chrono/s3lock/s3lock.go:271-279 | an undecodable object is taken by the first undisturbed tick |
| S3LockElector.Backend.Call | chrono/s3lock/s3lock.go:47-51 | a call returns exactly what the backend answered to this very request, of a kind that request can have, and a transport error exactly when the answer is lost or missing |
| S3LockElector.Elector.Validate | chrono/s3lock/s3lock.go:149-163 | an error is returned exactly when an option is missing or the lease is not positive |
| S3LockElector.Elector.Tick | chrono/s3lock/s3lock.go:194-260 | a tick has exactly the log its answers lead to; it fails exactly when an answer it needed was lost or missing, and then keeps flag and ETag; otherwise the flag says whether this tick committed a lease of its clock reading plus three times Lease, and it is down exactly after an object gone, a live foreign document or a lost race; answered promptly, it succeeds and leads exactly when the object was absent, its own or expired, and the object then carries that lease |
| S3LockElector.Elector.Contest | chrono/s3lock/s3lock.go:217-259 | the answers to the read and the second put decide: it fails exactly when one it needed was lost or missing, and otherwise leads exactly when the second put, made only for an own or expired document and under the ETag just read, was written |
| S3LockElector.Elector.Replace | chrono/s3lock/s3lock.go:239-255 | the conditional put leads when written, steps down on a failed precondition, and keeps flag and ETag when its answer is lost |
| S3LockElector.Elector.Loop | chrono/s3lock/s3lock.go:165-181 | one tick is made per turn, and fewer only when the loop has been cancelled |
| S3LockElector.Elector.Start | chrono/s3lock/s3lock.go:96-109 | an invalid or repeated Start changes nothing, the first valid one begins exactly one tick, from the current clock reading |
| S3LockElector.Elector.Release | chrono/s3lock/s3lock.go:131-137 | the delete is issued with the held ETag, flag and ETag are then cleared in that order whatever the answer, and an error is returned exactly when the answer is lost or missing; answered promptly, it removes the object exactly if that is still the held version |
| S3LockElector.Elector.Resign | chrono/s3lock/s3lock.go:118-147 | Resign of a started elector lets the loop make the ticks it still makes, deletes exactly when the flag is then up, and ends with the flag down and the elector resigned; it returns an error exactly when the answer to the delete is lost or missing; answered promptly, the held version is gone; a second Resign does nothing, and before Start it changes nothing |
| S3LockElector.ObjectsExclude | chrono/s3lock/s3lock.go:111-113 | two elector objects on one backend with raised flags and leases still ahead of their clocks plus the skew are the same owner |
| DynamoLockTheorems.TruncationIsConservative | chrono/dynamolock/dynamolock.go:192-208 | whole seconds never shorten a lease of three times Lease: a steal implies the exact deadline has passed, and one second after it a steal is possible |
| DynamoLockTheorems.ExecInv | chrono/dynamolock/dynamolock.go:191-257 | every step of every run keeps the invariant of item and electors |
| DynamoLockTheorems.StepRefines | chrono/dynamolock/dynamolock.go:200-218 | each step is at most one legal register operation, the table's own expiry included, and Resign removes only its elector's item |
| DynamoLockTheorems.RunRefines | chrono/dynamolock/dynamolock.go:191-257 | every run is a legal run of the lease register |
| DynamoLockTheorems.LateRemovals | chrono/dynamolock/dynamolock.go:126-138 | the time to live removes an item exactly when it is outdated in whole seconds; a delete that Resign has sent may still remove, later, exactly its own elector's item |
| DynamoLockTheorems.LeaseOnlyGrows | chrono/dynamolock/dynamolock.go:203-217 | between creation and removal lease_until never decreases, and increases across owners |
| DynamoLockTheorems.Exclusion | chrono/dynamolock/dynamolock.go:191-257 | with all clocks at most d apart, at most one elector outside Resign has its flag set with clock plus d not past the start of its last acknowledged tick plus three leases, and it is then the stored owner |
| DynamoLockStability.OnlyOwnerCommits | chrono/dynamolock/dynamolock.go:208-217 | against a lease_until no clock can be past yet no other elector commits and the table deletes nothing |
| DynamoLockStability.HolderStability | chrono/dynamolock/dynamolock.go:191-257 | while a holder renews in time, every commit of the run is its own and the item stays its own and fresh; another elector's flag goes up only to settle an acknowledgement that was on its way before the run, so with none on its way it never goes up, and if it was down it stays down |
| DynamoLockTheorems.ResignIsFinal | chrono/dynamolock/dynamolock.go:113-146 | once Resign of a started elector is over its flag is down in every later state |
| DynamoLockFlags.SecondFlag | chrono/dynamolock/dynamolock.go:220-227 | beside any other raised flag, one fault-free tick of a challenger raises a second exactly when the item is absent, the challenger's own or outdated on its clock |
| DynamoLockFlags.TwoFlags | chrono/dynamolock/dynamolock.go:106-108 | from every start with an absent item any two electors can have their raw flags up together |
| DynamoLockTakeover.FaultFreeOutcome | chrono/dynamolock/dynamolock.go:191-257 | after an undisturbed tick the elector leads exactly when the item was absent, its own or outdated in whole seconds, and the item then carries the tick's start plus three times Lease, in whole seconds |
| DynamoLockTakeover.Waiting | chrono/dynamolock/dynamolock.go:253-256 | ticks before one second past the stored lease leave the item and keep the challenger out |
| DynamoLockTakeover.BoundedTakeover | chrono/dynamolock/dynamolock.go:164-223 | against a silent holder the challenger leads after the first tick that starts at or after lease_until plus one second, which starts less than one interval later, and after no earlier one |
| DynamoLockTiming.RenewalMargin | chrono/dynamolock/dynamolock.go:164-197 | a holder whose next tick starts at most one interval after this one starts it with two leases left, but for the fraction of a second cut off |
| DynamoLockTiming.TakeoverAfterTick | chrono/dynamolock/dynamolock.go:164-223 | a holder whose last tick starts at t and then falls silent is replaced only after t plus three leases, and by a tick that starts less than one second and one interval of the challenger after that |
| DynamoLockElector.Table.Call | chrono/dynamolock/dynamolock.go:292-300 | a call returns exactly what the table answered to this very request, and a transport error exactly when the answer is lost or missing |
| DynamoLockElector.Elector.Validate | chrono/dynamolock/dynamolock.go:148-162 | an error is returned exactly when an option is missing or the lease is not positive |
| DynamoLockElector.Elector.Tick | chrono/dynamolock/dynamolock.go:191-257 | a tick has exactly the log its answers lead to; a put answered Done raises the flag with the next version and a deadline of the clock reading plus three times Lease; it fails exactly when an answer it needed was lost or missing, and then keeps the flag; after a read the flag stays only for an own item that has run out; answered promptly, it succeeds and leads exactly when the item was absent, its own or outdated |
| DynamoLockElector.Elector.Inspect | chrono/dynamolock/dynamolock.go:229-256 | after a failed condition the item the table answered with decides: gone, another's or not yet run out brings the flag down, anything else and a lost or missing answer keep it |
| DynamoLockElector.Elector.Loop | chrono/dynamolock/dynamolock.go:164-180 | one tick is made per turn, and fewer only when the loop has been cancelled |
| DynamoLockElector.Elector.Start | chrono/dynamolock/dynamolock.go:91-104 | an invalid or repeated Start changes nothing, the first valid one begins exactly one tick |
| DynamoLockElector.Elector.Resign | chrono/dynamolock/dynamolock.go:113-146 | Resign of a started elector lets the loop make the ticks it still makes, deletes exactly when the flag is then up, and ends with the flag down; it returns an error exactly when the answer to the delete is lost or missing; answered promptly, an own item is gone; a second Resign does nothing, and before Start it changes nothing |
| DynamoLockElector.ObjectsExclude | chrono/dynamolock/dynamolock.go:106-108 | two elector objects on one table with raised flags and deadlines ahead of their clocks plus the skew are the same owner |
| SingleFlight.ExecInv | cache/elasticache/capabilities.go:57-110 | every step keeps the invariant: each waiter's flight is finished or has a live leader that is not itself waiting, and each registered flight has its leader |
| SingleFlight.FlightAliveStep | cache/elasticache/capabilities.go:69-86 | a flight stays alive through every step of anybody, and does not change once its waiters are released |
| SingleFlightTheorems.OneLoadAtATime | cache/elasticache/capabilities.go:63-99 | no two loads of one key are ever under way together |
| SingleFlightTheorems.SaveSettles | cache/elasticache/capabilities.go:101-109 | a load whose value reaches the cache leaves its key cached with no load under way |
| SingleFlightTheorems.SettledStep | cache/elasticache/capabilities.go:88-93 | only a removal of the key unsettles it, because a new leader looks again under its flight |
| SingleFlightTheorems.SaveCaches | cache/elasticache/capabilities.go:101 | a write that takes effect caches exactly the loaded value under the call's key, and touches no other key |
| SingleFlightTheorems.UntouchedStep | cache/elasticache/capabilities.go:57-110 | nothing but a removal, a write from outside and a load's own write changes a cached key; in particular a failed load caches nothing |
| SingleFlightTheorems.ValueStays | cache/elasticache/capabilities.go:57-110 | a cached value stays until its key is touched |
| SingleFlightTheorems.SettledIsUntouched | cache/elasticache/capabilities.go:88-109 | while reads succeed, a cached key nobody is loading is touched only by a removal or a write from outside |
| SingleFlightTheorems.ReadFinds | cache/elasticache/capabilities.go:58-93 | a read that succeeds finds the cached value and the call returns it, at once or as the leader of its flight |
| SingleFlightTheorems.RemovalReloads | cache/elasticache/capabilities.go:88-95 | after a removal a leader that looks again loads again; after a write from outside it finds that value |
| SingleFlightTheorems.SecondLoadNeedsRemoval | cache/elasticache/capabilities.go:58-109 | with cache reads that succeed, a later load of a stored key implies the key was removed in between |
| SingleFlightTheorems.JoinersShareTheOutcome | cache/elasticache/capabilities.go:69-73 | every joiner returns exactly the value and error its leader returns, for the same key |
| SingleFlightTheorems.StepsLowerRank | cache/elasticache/capabilities.go:51-110 | every step leaves a call where it was or strictly closer to its return |
| SingleFlightTheorems.SomeCallMoves | cache/elasticache/capabilities.go:69-86 | no deadlock: a call that has not returned can step, or the leader it waits for can, and that leader is not waiting |
| SingleFlightTheorems.QuietMeansNoFlights | cache/elasticache/capabilities.go:79-86 | when every call has returned the flight map is empty |
| SingleFlightTheorems.EveryCallCanReturn | cache/elasticache/capabilities.go:51-110 | from every reachable state, steps of the calls alone bring every call to its return, and no flight is left then |
| SingleFlightClient.Client.RegisterOrAttach | cache/elasticache/capabilities.go:63-77 | a call attaches to the registered flight of its key, or leads a new one of its own |
| SingleFlightClient.Client.SaveLoaded | cache/elasticache/capabilities.go:101-109 | unless the write is lost before it takes effect, the loaded value is cached under the call's key and every other key is as before; the value is handed back even when storing it failed, together with that error |
| SingleFlightClient.Client.CleanUp | cache/elasticache/capabilities.go:81-86 | the flight leaves the map, and only then its waiters are released; the call returns the outcome it had |
| SingleFlightClient.Client.Lead | cache/elasticache/capabilities.go:88-110 | a value found on the second look is what the cache then held; otherwise a failed load is returned as it is and a successful one with what the write reported; the steps come in the source's order |
| SingleFlightClient.Client.GetOrLoad | cache/elasticache/capabilities.go:51-110 | a whole call is a run of the transition system: a hit returns what the cache held, a leader what it found or loaded, an attached call what the flight's leader returns, and it returns nothing only if the schedule ends while it waits |
| SingleFlightClient.ClientLoadsOnce | cache/elasticache/capabilities.go:63-99 | the client object never has two loads of one key under way |
| SingleFlightClient.LaterHitIsLoaded | cache/elasticache/capabilities.go:58-109 | when a load has stored a value and its key was not touched since, a later hit is that value |
| SingleFlightClient.ClientHitIsLoaded | cache/elasticache/capabilities.go:58-109 | a later call of the client whose fast path or second look succeeds returns the value an earlier call loaded and stored, if its key was not touched in between |
| SingleFlightClient.ClientReloadsAfterRemoval | cache/elasticache/capabilities.go:88-109 | a load of a key that an earlier call of the client object loaded and stored implies the key was removed since |
| S3Keys.SortedInOrder | s3/s3file.go:117-124 | a listing is in key order |
| S3Keys.SortedWithout | s3/s3file.go:125-129 | leaving the directory's own marker out of its listing is listing the keys strictly below it |
| S3FileSystem.S3FS.ListAll | s3/s3file.go:106-158 | however pages are cut, ListAll yields each key strictly below the directory once, in key order, and nothing else |
| S3FileSystem.S3FS.CopySingle | s3/s3fs.go:203-241 | one object is copied; a missing source or an empty destination key is an error without effect |
| S3Directory.InfoFinds | s3/s3file.go:196-243 | an unslashed key of the bucket is a file; the empty key, slashed keys, and other keys with anything listed in their directory, however deep, are directories; anything else does not exist |
| S3Directory.TargetOf | s3/s3fs.go:176-184 | the copy of a key keeps what follows the source key and puts it after the destination key |
| S3FileSystem.S3FS.Copy | s3/s3fs.go:137-200 | Copy of a directory terminates for every destination, reaches the target of every object below the source and only adds non-marker keys where the source lands; of a tidy source whose markers get no copies below them it is the promised copy, with every other key as it was, exactly when no object lands on a later-listed one with other bytes; of any source it is so when nothing lands below its markers or on other bytes in it |
| S3Directory.CopiedIsAll | s3/s3fs.go:171-196 | what Copy promises of a place apart determines every key of the bucket afterwards |
| S3Directory.TargetsApart | s3/s3fs.go:176-184 | copies land strictly below the landing prefix, hence never inside a source apart from it |
| S3Directory.NestedTarget | s3/s3fs.go:177-187 | copying a nested directory writes the very keys the outer copy writes, from the same origins |
| S3Directory.UntidyExample | s3/s3file.go:176-189 | a nested marker with a file in it fails the condition recursive delete needs |
| S3Directory.NestedClear | s3/s3fs.go:186-189 | when nothing lands below the markers of the source, nothing does so in the nested copy of a marker either, and it overwrites nothing it copies |
| S3Directory.LosingExample | s3/s3fs.go:384-389 | a bucket with one object, of a source that can be deleted, whose copy lands strictly below the source |
| S3Directory.OverwritingExample | s3/s3fs.go:171-196 | two objects of which the earlier lands on the later with other bytes |
| S3Directory.UnslashedExample | s3/s3fs.go:256-262 | an object that lands on the unslashed key of its own source directory |
| S3FileSystem.S3FS.DeleteAll | s3/s3file.go:171-193 | succeeds exactly when the key is not empty and no marker strictly below has an object below it; then exactly the keys strictly below the directory and the key itself are gone, the directory's own marker only when spelt with its slash; otherwise it stops after the first marker with an object but no non-empty marker below it, with exactly that marker, what is below it, and what was listed before it gone, the markers above it excepted |
| S3FileSystem.S3FS.DeleteChild | s3/s3file.go:176-190 | each child is deleted with everything under it, and a failure implies a non-empty marker below and stops where DeleteAll says |
| S3FileSystem.S3FS.Delete | s3/s3fs.go:244-263 | a file, or a key that does not exist, is removed alone, a directory as DeleteAll does; success on a key that is no file leaves nothing below it |
| S3DeleteTrace.StopsHere | s3/s3file.go:176-180 | the delete stops at the first object an earlier marker has taken away, with exactly the stated keys gone |
| S3DeleteTrace.StopsInside | s3/s3file.go:181-184 | a delete that stops inside a marker has stopped in the directory as stated |
| S3FileSystem.S3FS.Move | s3/s3fs.go:384-389 | a file is kept unless moved onto itself; a directory moved anywhere is emptied exactly when its key is not empty and no marker below it has an object below it or gets one, unless an object lands on its own unslashed key, which is then deleted alone; an emptied source arrives whole exactly when nothing lands in it; one of which nothing lands in it or on its key arrives whole even if the delete fails; one moved to or into itself is lost; only keys below the source, its own key and keys below the landing place change |
| S3Move.SourceAfterCopy | s3/s3fs.go:384-389 | after a copy to anywhere the source can be deleted as a directory exactly when it was tidy and no copy has landed below one of its markers |
| S3Move.EmptiedExactly | s3/s3file.go:176-192 | unless an object landed on its own key, the source is emptied exactly when it can be deleted so |
| S3Move.LandsOnSource | s3/s3fs.go:256-262 | an object that lands on the unslashed source key is deleted in place of the source, which stays, without error |
| S3Move.EmptiedArrives | s3/s3fs.go:384-389 | an emptied source arrives whole exactly when nothing lands strictly below it |
| S3Move.ApartIsOutside | s3/s3fs.go:176-184 | to a place apart nothing lands in the source or on its key |
| S3CopyTrace.ClashesAreDisorder | s3/s3fs.go:171-196 | an earlier child is written to a later child with other bytes exactly when some object lands on a later-listed one with other bytes |
| S3CopyTrace.TrackedAll | s3/s3fs.go:171-196 | once every child is dealt with, the copy is the promised one exactly when that has not happened |
| S3Listing.ListedOnce | s3/s3fs.go:277-326 | however pages are cut, a delimited listing shows every entry but the prefix itself exactly once |
| S3Listing.CommonRollsUp | s3/s3fs.go:282-286 | a common prefix stands for exactly the keys that extend it |
| S3Listing.Head | s3/s3fs.go:282-286 | rolling up at the delimiter keeps the first path segment with its slash, or the whole rest where there is none |
| S3Listing.PageInOrder | s3/s3fs.go:296-325 | of each page objects come before common prefixes, each kind in key order |
| S3Listing.ExpandExact | s3/s3fs.go:266-329 | expanding List recursively terminates and yields each non-marker key below the prefix exactly once |
| S3Lister.List | s3/s3fs.go:266-329 | List returns every direct entry but the directory itself, once |
| S3Lister.Walk | s3/s3fs.go:332-381 | the callback sees the keys strictly below the directory in order, up to and including the first it rejects, and all of them if it rejects none |
| S3Lister.ExpandMeetsWalk | s3/s3fs.go:266-381 | the recursive expansion of List is exactly the non-marker keys Walk visits |
| S3Lister.FileIterator.Next | s3/s3fs_lister.go:67-109 | each Next yields the next remaining entry, EOF exactly when none is left, and loses nothing when a fetch fails; after EOF or Close it is EOF |
| S3Lister.FileIterator.Close | s3/s3fs_lister.go:113-117 | nothing remains after Close |
| S3Lister.FileIterator.Drain | s3/s3fs_lister.go:67-109 | draining yields everything that remained, in order |
| S3Lister.ListBothWays | s3/s3fs_lister.go:24-109 | the drained lazy iterator yields exactly the sequence of the eager List, for every way of cutting pages, empty ones included |
| SqsRegistry.NamedSplits | sqs/sqs.go:636-643 | filtering by name splits a list into the named and the other entries, each in registration order |
| SqsRegistry.AddKeeps | sqs/sqs.go:540-545 | adding a listener keeps the account: listed in order and never cancelled, or gone and cancelled once |
| SqsRegistry.RemoveNamedKeeps | sqs/sqs.go:629-650 | removing by name keeps the account and leaves no empty list |
| SqsRegistry.RemoveAllKeeps | sqs/sqs.go:611-624 | removing a host's listeners keeps the account |
| SqsRegistry.CloseKeeps | sqs/sqs.go:595-606 | closing keeps the account |
| SqsRegistry.RunAccounted | sqs/sqs.go:540-650 | after any sequence of operations every listener ever added is listed and uncancelled, or gone and cancelled exactly once |
| SqsProvider.Compact | sqs/sqs.go:636-643 | compaction over the slice's own array keeps exactly the other-named entries in order and cancels exactly the named ones in order |
| SqsProvider.TakeHost | sqs/sqs.go:599-603 | cancelling host by host, in any order, cancels each listener once |
| SqsProvider.Provider.AddListener | sqs/sqs.go:540-545 | the listener, with its name, is appended to its host's list, in place or in a bigger array; no other list, and no cancel, changes |
| SqsProvider.Provider.RemoveListeners | sqs/sqs.go:611-624 | the host is forgotten, each of its listeners has been cancelled once, no other listener is cancelled, and every other host keeps its list |
| SqsProvider.Provider.RemoveNamedListener | sqs/sqs.go:629-650 | exactly the host's listeners of the name are gone and cancelled once, the others stay in order, an emptied host is forgotten, and every other host keeps its list |
| SqsProvider.Provider.Close | sqs/sqs.go:595-606 | every listed listener has been cancelled once, no other, and nothing stays listed |
| SqsProvider.Provider.EveryListenerAccounted | sqs/sqs.go:540-650 | the account holds of the provider object after any calls |

## Left out

- AWS clients, HTTP, configuration, logging, observers, JSON: a lock body is an injective encoding of a document, or corrupt.
- Times are unbounded integers: overflow of `now + 3*Lease` and years JSON cannot carry are not modelled. The zero time of an undecodable lock document is number 0, at or before the clock readings of interest.
- Concurrent calls of `Start` and `Resign` on one elector; the cancel of `Resign` may come while a tick of the loop is running.
- The ticker appears only as bounded gaps between tick starts, and takeover is stated for a fault-free backend without rival writers.
- DynamoLockTheorems.Exclusion: holds under the assumption that a put whose call has returned never takes effect later.
- At most one raw flag at a time: not claimed, because the code does not guarantee it (`S3LockFlags.TwoFlags`).
- S3LockTheorems.HolderStability: a rival's flag that is up when the run begins may stay up, and an acknowledgement of an older commit already on its way may still raise one: the code does not look at the clock again.
- DynamoLockStability.HolderStability: the same two flags may be up.
- S3 backends that answer an `If-Match` put on a missing key with NoSuchKey: the elector treats it as a transport error, which the lost answer covers.
- dynamolock items with missing or mistyped attributes, and monotonicity of `version` across owners: each elector counts its own.
- Panics in `load`, calls of `GetOrLoad` for the same key from inside `load`, and the cache's time-to-live arithmetic: expiry is a removal at any moment.
- Flights are numbered by the call that created them instead of being shared pointers.
- Network failures inside the S3 file system operations, copies between buckets, and concurrent changes to the bucket while one runs.
- S3FileSystem.S3FS.Copy: when a copy lands below a marker of the source, or on other bytes in a source with a non-empty marker, only CopyMade's other clauses are stated: the nested copies then run over keys that are themselves copies.
- S3FileSystem.S3FS.Move: of an unslashed directory with a marker that gets copies below it, on whose key no object lands but a copy of a copy might, it says that the source is not emptied and that after a reported success nothing of it is gone, and not when success is reported.
- The `Raw` and `Ctx` variants of S3, ranged reads, read and write buffering, metadata.
- URL parsing, and keys that `url.URL` would not carry unchanged.
- `SendBatchCtx` chunking and the SQS send and receive paths: field mapping and slices of ten.
- Cancels that listener goroutines call themselves, and their polling; the nil map after `Close` is an empty map.
- bedrock, bedrockkb, sns, secrets, Cognito, awsiam, opensearch: thin wrappers, crypto not shown, or only easy members.
