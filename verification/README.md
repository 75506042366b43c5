# Conditional storage, leases and transactions: a verified model

A Dafny model of the parts of the `store` package whose correctness is not visible in any one function:
the lease lock, transactions and atomic batches, optimistic updates, the object cache and the file backend.
Everything is built, as in the program, on conditional operations on a single key whose ETag is a hash of
the content.

`dafny verify dfyconfig.toml` checks the whole project.

## How it is organised

**The lease lock.** `Leases` holds the stored lease document and the decisions taken on it. `LockMachine`
is one call of TryAcquire, Renew, Release or IsHeld, cut at its storage operations; between two of them the
call is a pure function of the reply. `LockProtocol` interleaves any number of calls of any number of
lockers on one lease record: every clock reading, read and conditional write is a step of its own, a write
can be applied and reported, applied and reported as failed, or not applied, each locker has its own clock
offset and its own table of observations, and real time passes between steps. `LockInvariant`,
`LockPreservation` and `LockLocal` prove one invariant of all runs; `LockTheorems` and `LockRecovery`
draw the conclusions, and `LockContents` says what the leases and handles of a run contain. `LockDriver` runs one
call, or a whole Acquire, against scripted surroundings, `LockOutcomes` says what such a call returns, told from the
replies it gets, and `Lockers` is the Locker as a class with its retry loops, proved to do exactly what the machine
does.
`WithLock` is the callback, the renewal goroutine and the canceller under every schedule.

**Transactions.** `Conditions` are the conditional options and the three decisions on them. `MockStorages`
is the in-memory backend with its injected failures and its atomic batch, `StorageLaws` says what its operations
mean, `AtomicBatches` compares the batch with running its operations one by one and with applying them all at once.
`Staging` is a transaction as a value, `StagingTheorems` what any sequence of calls on it keeps and guarantees,
`StagingMeaning` when its calls are accepted, what they leave to be published and what its reads show,
`StorageTransactions` the transaction object and its coordinator. `Listings` is the listing of the
in-memory backend.

**The file backend.** `FileStores` cuts every operation into the system calls it makes: creating and
filling a temporary file, taking an advisory lock, opening, reading chunk by chunk, linking or renaming or
removing, syncing, unlocking. Any step may fail, and any may be the last before a crash. `FileStoreRefinement`
proves step by step that this is an atomic conditional store; `FileStoreTheorems` states it for whole runs, and
`FileStoreAnswers` that the answers are right for what was stored;
`FileStorages` is the FileStorage class, each of whose methods is proved to be one call of the protocol
with everybody else's steps between its own. The class makes its system calls by taking the protocol's own
steps: what it adds is the control flow around them, that is the loops, the decisions taken on what was read
and the answers, while the effects of link, rename and remove are those of `FileStores`.

**Optimistic updates.** `AtomicUpdates` is the read-modify-write command as a loop and N of them
interleaved. `ObjectSync` is the Object whose edits interleave with its own loads, saves and deletes and
with other writers; `ObjectFlights` says what each of these comes to from its beginning to its end.

## Assumptions

- Digests and encodings are injective: an ETag determines the content it is the hash of.
- Every lease ID drawn is new.
- Only lockers write a lease key, and nothing deletes it (`README.md:180-182`).
- The timing results carry a bound on the longest delay between a call's clock reading and any of its
  storage operations. The protocol measures that delay along the run (`System.delay`), so nothing is
  assumed about it.
- Clocks differ by arbitrary constant offsets, but each of them advances with real time, and all calls of one
  locker read the same clock. The program lets every call bring a clock of its own (`store/lock.go:535-545`);
  a locker's calls are assumed not to mix clocks.
- A write that is reported as failed has been applied by then or never will be.

## Where the code falls short of what one might expect

These are consequences of the code as it is, each proved with a concrete run.

- `StagingTheorems.LostUpdateByDelete`: a key that is absent when first staged and whose last staged
  operation is a delete is deleted at commit even if somebody created it meanwhile, because a delete looks
  at If-Match only. `PublishesIffUnchanged` shows that this is the only exception.
- `AtomicUpdates.AppliedTwice`: when a write is applied but reported as failed, the retried send comes back
  as a conflict, and the command makes its update a second time. `RepeatsExactlyIf` gives the exact condition
  on the configuration: this can happen if and only if the command has a retry, asks for no initial version,
  and its store's retrier sends again. `WritesBounded` bounds the updates made by max(0, retries + 1) in
  every run.
- `ObjectSync.RefreshLosesAnUpdate`: FetchMetadata and Exists adopt the ETag of content that was never
  loaded, and the next Save replaces that content. `PlainSavesReplaceTheHeld` gives the exact condition.

## Model

| member | source | states |
|---|---|---|
| Conditions.ConditionsMeaning | store/helpers.go:48-119 | A put passes exactly when its If-Match and its If-None-Match both hold of the stored object, a delete exactly when its If-Match does, and a refusal is always PreconditionFailed; a read is refused with PreconditionFailed exactly when an If-Match tag is not the object's, and else with NotModified exactly when an If-None-Match tag is |
| LockLocal.RunKeepsInv | store/lock.go:117-352 | In every run of any number of lockers the record's history is a chain of creations, claims, renewals and releases, each written over exactly the lease its writer had read |
| LockTheorems.VersionsFollowIDs | store/lock.go:142-193 | Along the history the token never falls, and stays the same exactly as long as the lease ID does |
| LockTheorems.AbaFree | store/lock.go:183-318 | No state of the record recurs, so no ETag does; each write raises Revision by one, each acquisition raises Version by one and nothing else changes it |
| LockTheorems.RunGrows | store/lock.go:142-205 | Later states of a run extend the history, and a finished call stays as it ended |
| LockTheorems.TokensUnique | store/lock.go:142-205 | In no run do two successful TryAcquire calls return the same fencing token, however many writes were applied and reported as failed |
| LockTheorems.TokensGrow | store/lock.go:142-205 | A TryAcquire that starts after another has succeeded gets a strictly larger token |
| LockTheorems.TakeoverTiming | store/lock.go:141-204 | A claim over a held lease is written no earlier than that lease was, plus its duration and the contender's grace, less the delay; clock offsets play no part |
| LockTheorems.RenewalKeepsLock | store/lock.go:179-193 | While the clock stays short of the held record's duration plus the least grace of any claim, less the delay, every write is a renewal, and lease ID and token stay |
| LockTheorems.ContendersKeepOut | store/lock.go:242-289 | The same with the grace that every contender is configured with |
| LockTheorems.RenewalOnTimePasses | store/lock.go:266-283 | A renewal that could be written when it was decided on takes effect when its send reaches the store, if the record is on time all along and nothing else renewed or released it |
| LockTheorems.StaleHandlesNeverWrite | store/lock.go:255-328 | Whoever renews or releases writes under the token that is in the record, which is no older than any before it |
| LockTheorems.StaleCallsFail | store/lock.go:255-328 | A Renew or Release with an older token than the record's, begun after that record was written, never succeeds, by read-back neither, and writes nothing |
| LockContents.LeasesAreConfigured | store/lock.go:142-318 | In every run each lease created, claimed or renewed has its writer's TTL as duration and expires that much after the writer's clock reading; an acquisition names its writer as owner and that reading as its time; a release expires at it; renewals and releases leave the rest |
| LockContents.HandlesAreConfigured | store/lock.go:486-496 | The handle of an acquisition carries the same values, and that of a renewal a new ETag and expiry and nothing else new |
| LockRecovery.InboxWasRead | store/lock.go:467-473 | A lease a call finds by reading was the record at the moment that call's read ran |
| LockRecovery.RecoveryIsSound | store/lock.go:158-198 | Success reported after a failed write means that at the read-back the store held exactly the intended lease, for an acquisition one written by this very call |
| LockRecovery.ResendsAreHarmless | store/retry.go:84-149 | However often a write is resent, a call changes the record at most once for each write it decides on |
| LockRecovery.SendsBounded | store/retry.go:91-149 | No lease write is sent more than max(0, maxRetries) + 1 times |
| LockDriver.ResendBounded | store/retry.go:84-149 | The retry loop sends at least once and at most max(0, maxRetries) + 1 times, and returns success only if its last send did |
| LockDriver.DriveSends | store/store.go:182-233 | A whole write with all its resends takes the call to the state that the last reply calls for |
| LockDriver.CrashedHolderIsReplaced | store/lock.go:209-239 | A lone contender facing an unchanging held lease acquires it with the next token after at most 1 + ceil((duration + grace) / min(retryDelay, maxDelay)) attempts |
| LockOutcomes.ResendGivesUpOnlyIf | store/retry.go:84-149 | The retry loop sends again exactly after retriable errors with its context alive, and gives up only for an error that is not retriable, an ended context, or every retry used up |
| LockOutcomes.TryAcquireAnswers | store/lock.go:117-206 | TryAcquire acquires exactly when its create arrived, or the lease there is its own, or that lease was released or watched for long enough and its claim arrived; the handle describes that lease; otherwise it fails with the code of what went wrong, and the watch goes on or begins anew |
| LockOutcomes.ReleasedLockIsClaimed | store/lock.go:179-193 | A released lock is acquired with the next token whenever the claim is stored |
| LockOutcomes.HeldOnlyIf | store/lock.go:163-203 | LockHeld is returned only for a held lease whose watch is unfinished, a record that is gone, or a claim refused because the lease had changed |
| LockOutcomes.RenewAnswers | store/lock.go:242-289 | Renew succeeds exactly when owner, token and ETag of the handle are the record's, the lease is held and its watch unfinished, and the renewed lease, TTL from the configuration, arrives; otherwise it fails for the first thing that is wrong |
| LockOutcomes.ReleaseAnswers | store/lock.go:292-331 | Release succeeds exactly when the handle is current and the released lease arrives |
| LockOutcomes.IsHeldAnswers | store/lock.go:335-352 | IsHeld reports held exactly when the lease read is held and its watch unfinished, and the handle describes that lease |
| LockOutcomes.AcquireGoesOn | store/lock.go:209-239 | Acquire makes another attempt exactly as long as the last found the lock held and the context lives, and returns what the last attempt did or Cancelled |
| LockOutcomes.PausesDouble | store/lock.go:224-237 | The pauses between attempts are retryDelay and then its doublings, capped at maxDelay |
| Lockers.LeaseStore.Put | store/retry.go:84-149 | The retry loop sends what the specification of resending says, within its bound |
| Lockers.Locker.CanTakeOver | store/lock.go:439-459 | Answers whether this ETag has been watched for the duration plus grace, and starts a new watch exactly when the ETag or the clock says so |
| Lockers.Locker.RecoverLeaseWrite | store/lock.go:467-484 | Answers whether the store holds exactly the expected lease |
| Lockers.Locker.TryAcquire | store/lock.go:117-206 | Refuses bad input without touching the store; otherwise returns the handle or error, keeps the observations and makes the storage calls that the lock machine does |
| Lockers.Locker.Acquire | store/lock.go:209-239 | Returns, sleeps, observes and calls the store as the specification of Acquire does |
| Lockers.Locker.ValidateHandle | store/lock.go:416-437 | Returns the error of the first check that fails, in the order owner, token, ETag, expiry |
| Lockers.Locker.Renew | store/lock.go:242-289 | Does what the machine does, and updates the handle's ETag and expiry exactly when it succeeds |
| Lockers.Locker.Release | store/lock.go:292-331 | Does what the machine does, and leaves the handle as it is |
| Lockers.Locker.IsHeld | store/lock.go:335-352 | Does what the machine does, with a handle that only reports what was read |
| WithLock.ReleaseAfterRenewer | store/lock.go:369-408 | Release is called at most once, only after the renewer's single result was received; from then on the renewer is gone |
| WithLock.RenewalErrorReported | store/lock.go:387-413 | A failed renewal ends the callback's context and is in the returned error, unless it was a cancellation and the callback failed too |
| WithLock.RenewerResultReported | store/lock.go:379-413 | So is whatever else the renewer reports, such as a deadline it saw at its select |
| WithLock.ReportsForAReason | store/lock.go:379-394 | The renewer stops only because a renewal failed, which it reports, because the context ended, whose cause it reports, or because the callback is done |
| WithLock.KeepsRenewing | store/lock.go:379-394 | After a renewal that succeeds the renewer can always renew again |
| WithLock.ContextEndReported | store/lock.go:384-413 | The first cause of the context's end, once the renewer has seen it, is in the returned error, unless it is a cancellation and the callback failed too |
| WithLock.ErrorsExactly | store/lock.go:397-413 | An error is in what WithLock returns exactly when the callback or Release returned it, or the renewer reported it and it is not a cancellation beside a failed callback |
| WithLock.NilMeansAllWell | store/lock.go:397-413 | WithLock returns nil exactly when callback, renewer and release all did; the callback's and the release's errors are always returned |
| WithLock.NeverStuck | store/lock.go:372-407 | Once the callback has returned, some step other than a tick always brings WithLock nearer to returning |
| MockStorages.MockStorage.Put | store/mock_storage.go:137-195 | Stores the content under its digest exactly when no failure is armed and the conditions hold; on any error nothing changes |
| MockStorages.MockStorage.Delete | store/mock_storage.go:214-245 | Removes the object exactly when no failure is armed, If-Match holds and it exists; on any error nothing changes |
| MockStorages.MockStorage.Get | store/mock_storage.go:77-106 | Returns the object, or the error of the first check that fails |
| MockStorages.MockStorage.CopyObjects | store/mock_storage.go:262-270 | The copy the batch works on equals the map, whatever order its keys come in |
| MockStorages.MockStorage.ApplyAtomicBatch | store/mock_storage.go:249-312 | Leaves what all operations in order leave, or, on the first error or an armed failure, exactly what was there |
| MockStorages.FailureIsFinal | store/mock_storage.go:272-309 | An error in a prefix of a batch is the error of the batch |
| StorageLaws.PutMeans | store/mock_storage.go:137-195 | A put stores content and digest exactly when If-Match and If-None-Match hold of what is there, changes nothing else, and otherwise fails with PreconditionFailed |
| StorageLaws.DeleteMeans | store/mock_storage.go:214-245 | A delete removes the object exactly when If-Match holds and it is there |
| StorageLaws.GetMeans | store/mock_storage.go:77-106 | A get finds the object exactly when it is there, carries the If-Match tag if one is given and does not carry the If-None-Match tag; else the error is NotFound, PreconditionFailed or NotModified, in this order |
| StorageLaws.WritesReadBack | store/mock_storage.go:77-245 | What was put is read back under the reported ETag, what was deleted is not found, and no other object is affected |
| StorageLaws.BatchInParts | store/commands.go:354-373 | A command batch in two parts is the first and then the second, with all errors in order, unless it stops on the first part's error |
| AtomicBatches.ExecuteOne | store/commands.go:39-128 | A put or delete command does what one backend operation does, behind an armed failure |
| AtomicBatches.Execute | store/commands.go:354-373 | Runs the commands in order, stopping at the first error or collecting them all, whether or not a failure is armed |
| AtomicBatches.BatchRefinesSequence | store/mock_storage.go:249-312 | The batch succeeds exactly when running its operations in order through Put and Delete would, with the same objects, and fails with the first error that run meets |
| AtomicBatches.SkipRefinesSequence | store/transaction.go:321-335 | A best-effort commit leaves what running its operations in order past their errors leaves, and meets none exactly when the batch would succeed |
| AtomicBatches.BatchIsOverlay | store/mock_storage.go:249-312 | For distinct URIs the batch succeeds exactly when every operation passes on the original objects, and then lays exactly their effects over them |
| AtomicBatches.OrderIrrelevant | store/mock_storage.go:249-312 | For distinct URIs neither the outcome nor the result depends on the order of the operations |
| Listings.ListObjects | store/mock_storage.go:389-461 | However the map is walked, the result is the sorted list of the entries that stand for the matching objects, cut off at MaxKeys |
| Listings.List | store/mock_storage.go:351-461 | The same for a URI and options, behind an armed failure and the parse of the URI |
| Listings.ListsBelowKey | store/mock_storage.go:369-386 | A key in the URI is taken for a directory: nothing outside it is listed |
| Listings.QueryMeans | store/mock_storage.go:369-393 | A URI is asked for exactly when it starts with scheme, bucket, the key as a directory and the prefix; the delimiter counts exactly when it is set and the listing is not recursive |
| Listings.EntryMeans | store/mock_storage.go:401-440 | An object is listed under its key, or, if a delimiter counts and occurs after the prefix, under the part of the key up to and including its first occurrence |
| Listings.EntriesAreStored | store/mock_storage.go:395-440 | Every entry of a listing stands for a stored object that was asked for |
| Listings.FirstOnesKept | store/mock_storage.go:442-461 | A listing has all entries or MaxKeys of them, and every one left out comes after every one kept |
| Listings.LessMeans | store/mock_storage.go:453-455 | The order is that of bytes: a proper prefix first, else the smaller character where the keys first differ |
| Listings.ListingIsUnique | store/mock_storage.go:389-461 | The listing is a function of the stored URIs and the options |
| Listings.EveryObjectCoveredOnce | store/mock_storage.go:395-459 | Unless MaxKeys cuts the listing off, exactly one entry covers a matching object: its own key, or one common prefix |
| Listings.KeysDistinct | store/mock_storage.go:405-451 | No two different entries share a key |
| StagingTheorems.PlayKeepsOrder | store/transaction.go:585-730 | After any calls the staging order lists every staged URI exactly once and nothing else, and only grows |
| StagingTheorems.RejectedStagingChangesNothing | store/transaction.go:585-700 | A staging call that returns an error stages and unstages nothing; on a transaction that is not active it always does |
| StagingTheorems.EndedForGood | store/transaction.go:585-836 | A committed or rolled back transaction never changes again and refuses every call; one not active any more stages nothing |
| StagingTheorems.BaselineInherited | store/transaction.go:617-625 | Whatever is staged for a URI without conditions of its own is conditioned on what the lookup found when the URI was first staged |
| StagingTheorems.PublishesIffUnchanged | store/transaction.go:617-711 | Such an operation passes at commit exactly when the object is as it was captured, or, for a delete of a URI captured as absent, exactly when there is something to delete |
| StagingTheorems.CaptureWasAnswered | store/transaction.go:557-582 | What was captured is what the backend was asked for and answered at some call made while the URI was not yet staged, the first staging call or an earlier one |
| StagingTheorems.NoLostUpdates | store/transaction.go:557-711 | If a commit succeeds, an unconditioned staging was published over the very object that the backend reported when the first staging call or an earlier call asked for it, outside the one excepted case; the backend may also have answered with errors |
| StagingTheorems.LostUpdateByDelete | store/helpers.go:104-119 | The excepted case, as a run: an object created by somebody else is deleted |
| StagingTheorems.CommitShowsView | store/transaction.go:748-812 | After the batch every staged URI reads as it read through the transaction and every other one as before |
| StagingMeaning.PutAcceptedIff | store/transaction.go:585-642 | A put is accepted exactly when the transaction takes staging calls and the put's own conditions hold of what the transaction itself would show for the URI; else the error is the one that says why not |
| StagingMeaning.DeleteAcceptedIff | store/transaction.go:659-716 | The same for a delete, which also needs the object to be there |
| StagingMeaning.LastAcceptedCounts | store/transaction.go:585-730 | A URI is staged exactly when some staging call for it was accepted, and what is staged is the kind, content and own conditions of the last of these |
| StagingMeaning.OwnConditionsDecide | store/transaction.go:617-711 | An operation staged with conditions of its own passes at commit exactly when these hold of the object by then, a delete only of one that is there |
| StagingMeaning.CommitDoesAsAsked | store/transaction.go:249-356 | A successful commit leaves each staged URI as the last accepted call asked and every other as it was, and the conditions that call gave held of what it replaced |
| StagingMeaning.ReadAnswers | store/transaction.go:748-836 | A read through the transaction answers from what is staged, else from what it has read before, under the caller's tags, and else passes on the backend's answer |
| StagingMeaning.ReadsAreRepeatable | store/transaction.go:748-836 | What a transaction has once read it goes on reading, whatever others write, until it stages the URI itself |
| StorageTransactions.StorageTransaction.Put | store/transaction.go:585-656 | Changes the transaction as the staging function says, and keeps the overlay and the coordinator in order |
| StorageTransactions.StorageTransaction.Delete | store/transaction.go:659-730 | Likewise for a delete |
| StorageTransactions.StorageTransaction.Get | store/transaction.go:748-836 | Answers from the overlay, then the cache, then the backend, and caches what the backend gave |
| StorageTransactions.StorageTransaction.Prepare | store/transaction.go:203-245 | Moves to preparing exactly when the hooks pass and every object to be deleted is there, else to aborted; touches nothing else; an armed failure other than NotFound of a staged URI makes it fail |
| StorageTransactions.StorageTransaction.ApplyOperationWithRetry | store/transaction.go:443-471 | Applies the operation once or not at all, whatever the attempts; an armed failure costs an attempt if it is retriable and the context lives, else the operation |
| StorageTransactions.StorageTransaction.ApplyInOrder | store/transaction.go:321-335 | Leaves what the operations that pass leave, in staging order, and reports the last error, whether or not a failure is armed |
| StorageTransactions.AttemptedMeans | store/transaction.go:321-341 | That is what the batch leaves if there is no error, nothing if the only operation fails, and without failures, or with one that is retried, what the passing operations leave |
| StorageTransactions.OneMovesRegistryStays | store/transaction.go:915-927 | Among any transactions with distinct IDs, whatever one of them does within its contract, the coordinator still holds exactly the open ones |
| StorageTransactions.NewcomerJoinsRegistry | store/transaction.go:194-199 | So it does once a new transaction has registered |
| StorageTransactions.StorageTransaction.Commit | store/transaction.go:249-356 | Without partial commits all staged operations are published or the backend is left alone; an error never leaves the transaction committed; gives exactly when it succeeds, also behind a failure that is retried |
| StorageTransactions.StorageTransaction.Rollback | store/transaction.go:359-398 | Discards the overlay, closes the transaction and unregisters it, once |
| FileStoreRefinement.StepRefines | store/filestorage.go:375-504 | Every system call of every operation keeps the invariant and either leaves the stored objects alone or serves one request on them atomically |
| FileStoreRefinement.OthersUndisturbed | store/filestorage.go:391-504 | A step of one operation leaves what another has staged, locked, opened, read or checked as it was |
| FileStoreTheorems.RunRefines | store/filestorage.go:375-532 | Any interleaving, with any failures and crashes, leaves the directory as serving the logged requests one at a time would, and answers them so |
| FileStoreTheorems.EffectIsOnceAndInTime | store/filestorage.go:429-471 | An operation takes effect at most once, while it runs, and with the answer it returns; only an I/O error or a cancellation leaves that open |
| FileStoreTheorems.RealTimeOrder | store/filestorage.go:473-504 | An operation that has returned precedes every later one in the order of effects |
| FileStoreTheorems.OneWinner | store/filestorage.go:429-455 | Of the writers that race on one ETag with new content at most one is told it succeeded |
| FileStoreTheorems.OneCreator | store/filestorage.go:435-449 | Of the writers that race to create an object nobody deletes at most one is told it succeeded |
| FileStoreTheorems.ReadersSeeWholeWrites | store/filestorage.go:83-94 | A reader gets the whole content of one put that took effect before, or the initial object, with that content's ETag |
| FileStoreTheorems.DeadHoldersBlockNobody | store/filestorage.go:473-504 | Locks of returned or crashed operations are gone: the next attempt of a waiting one gets the lock |
| FileStoreAnswers.AnswersAreRight | store/filestorage.go:67-471 | In every run each conclusive answer is right for the objects stored when the call took effect: found exactly when the tags allow it, stored or removed exactly when the conditions held, and the code otherwise |
| FileStoreAnswers.NotModifiedOnMatch | store/helpers.go:53-57 | A read under If-None-Match never returns an object with that tag, and answers NotModified only when the object had it |
| FileStorages.FileStorage.PutReader | store/filestorage.go:375-471 | Is one put of the protocol, whatever others do between its system calls; an inconclusive answer has its reason, and a cancelled one found the lock taken at every attempt |
| FileStorages.FileStorage.Get | store/filestorage.go:67-95 | Is one get of the protocol, likewise |
| FileStorages.FileStorage.Delete | store/filestorage.go:149-188 | Is one delete of the protocol, likewise |
| FileStorages.FileStorage.Lock | store/filestorage.go:473-501 | Polls until it holds the lock, an error, or the end of the caller's patience, and is cancelled only if a conflicting lock was held at every poll |
| FileStorages.FileStorage.TryLock | store/filestorage.go:480-498 | One poll fails only if somebody holds a conflicting lock |
| FileStorages.FileStorage.ReadSnapshot | store/filestorage.go:506-532 | Reads the file to its end in any chunks and yields the verdict the atomic store would |
| AtomicUpdates.AtomicUpdateCommand.Execute | store/commands.go:249-330 | Makes at most max(0, retries + 1) reads; what it returns is the update of what it read last, one version on, and was stored in its place; every attempt but the last met a conflict with the context alive; and it ends in an error only because the last read or update failed, the version was another than asked for, the put failed other than by a conflict, the context had ended after a conflict, or every attempt was used up on conflicts |
| AtomicUpdates.RunKeepsInv | store/commands.go:256-316 | In every interleaving each write replaces exactly what its client had read by that client's update of it |
| AtomicUpdates.UpdatesCompose | store/commands.go:256-299 | The stored value is the clients' updates applied one after the other in the order of the writes, and the version counts them |
| AtomicUpdates.SuccessesAreTheWrites | store/commands.go:294-299 | If errors mean that nothing was written, the successful commands are exactly the writes, one each, and the version rises by their number |
| AtomicUpdates.CountsExactlyWhenHeard | store/commands.go:294-316 | The version rises by the number of successes exactly when no write took effect behind its client's back |
| AtomicUpdates.AttemptsBounded | store/commands.go:256-318 | No interleaving makes a command try more than max(0, retries + 1) times |
| AtomicUpdates.WritesBounded | store/commands.go:256-318 | Whatever replies are lost, a command makes its update at most max(0, retries + 1) times, and at most once without a retry, with an initial version, or under a retrier that does not send again |
| AtomicUpdates.GivesUpOnlyIf | store/commands.go:256-329 | In every interleaving a command that ended in an error did so at a step that gives one of these reasons, the last only after a conflict at every attempt |
| AtomicUpdates.AppliedTwice | store/store.go:182-233 | For every other command: a write applied and reported as failed, then resent, makes it apply its update twice and report one success |
| AtomicUpdates.RepeatsExactlyIf | store/commands.go:256-316 | A command can make its update twice if and only if it has a retry, asks for no initial version, and its retrier sends again |
| ObjectSync.Object.FinishLoad | store/object.go:82-108 | Adopts what was loaded exactly when nothing was edited since the load began |
| ObjectSync.Object.StartSave | store/object.go:180-197 | Decides whether there is anything to save and under which conditions |
| ObjectSync.Object.FinishSave | store/object.go:204-212 | Adopts the new ETag, and clears the modified flag exactly when nothing was edited since the save began |
| ObjectSync.Object.FinishDelete | store/object.go:221-238 | Forgets the entity, or keeps it as an unsaved edit if it was edited since the delete began |
| ObjectSync.CleanMeansSynced | store/object.go:53-241 | In every interleaving, loaded and not modified means that the entity is exactly the content last loaded or saved |
| ObjectSync.CleanHoldsOwnTag | store/object.go:82-241 | Without metadata refreshes a clean object holds its own entity's ETag |
| ObjectSync.PlainSaveAppliesIff | store/object.go:191-202 | A put of an unforced Save takes effect exactly when the stored content is the one whose ETag was held, or nothing if none was |
| ObjectSync.PlainSavesReplaceTheHeld | store/object.go:191-202 | Every such write replaces that content, which is the content last loaded or saved exactly when the held ETag is that content's |
| ObjectSync.PlainSavesReplaceTheSeen | store/object.go:173-214 | Without metadata refreshes it never replaces content this object has not loaded or saved last |
| ObjectSync.RefreshLosesAnUpdate | store/object.go:116-125 | With a refresh it may, as a run |
| ObjectSync.EditsAreNotLost | store/object.go:53-59 | An edit made while a load, save or delete is in flight stays, marked as modified, however that operation ends |
| ObjectFlights.RevisionCountsEdits | store/object.go:53-241 | While a load, save or delete is in flight the revision moves exactly when something is edited, and the entity is the last edit's |
| ObjectFlights.LoadEnds | store/object.go:82-108 | A load adopts what was stored when it fetched, with its ETag, exactly when nothing was edited meanwhile; else the last edit stays, marked as modified |
| ObjectFlights.SaveBeginsIff | store/object.go:173-190 | There is something to save exactly when the object is modified or the save is forced or has conditions |
| ObjectFlights.SaveAppliesIff | store/object.go:180-202 | A put of a save that reaches the store takes effect exactly when its own conditions hold, if it is forced or has any, and else exactly when the object is still the one, or the absence, whose ETag was held |
| ObjectFlights.SaveEnds | store/object.go:173-214 | A save stores the entity as it was when it began and adopts its ETag; afterwards the object is modified exactly when it was edited meanwhile |
| ObjectFlights.DeleteAppliesIff | store/object.go:217-226 | A delete that reaches the store removes the object exactly when it is there and If-Match holds |
| ObjectFlights.DeleteEnds | store/object.go:217-241 | A delete leaves an empty object, or the last edit made meanwhile, modified and without an ETag, so that the next save creates the object only if it is absent |

## Left out

- The S3 backend, its error translation and the AWS SDK: no logic of their own that the model could add to.
- Codecs, digests, random IDs: assumed injective, invertible and fresh, see above.
- Overflow of 64-bit versions, revisions and durations: numbers are unbounded, so the doubling of Acquire's
  delay and the sums of times never wrap.
- A Get under the retrier is one read: only its last attempt is seen by the caller, and earlier ones have
  no effect. The lengths of the retrier's pauses, with their float jitter, are left out; the number of
  sends is kept.
- Writes that a backend reports as failed and applies only later.
- Deletion of lease keys by others, which the package forbids.
- Concurrent Renew or Release on one handle object, which is a data race in the program; `LockProtocol`
  gives every call its own copy of the handle and lets every copy ever produced be used again.
- Handles from IsHeld are observations; nobody renews or releases with them.
- The methods of `Lockers` run one at a time against scripted surroundings; interleaving is in `LockProtocol`.
- Acquire and the file lock give up after a number of waits chosen by the caller, standing for a context
  that ends; waiting for ever is not modelled.
- Conditions on modification times, content types, user metadata, LastModified and LastAccess.
- Concurrent callers on one transaction: Commit drops its mutex around Prepare, and the claims are for
  calls made one after the other.
- Retry strategies other than the default one for a commit's operations.
- Transaction hooks are inputs that pass or fail; those whose result is ignored are left out, as are logs,
  metrics, timestamps and the coordinator's clean-up of stale transactions.
- AtomicBatches.Execute: runs put and delete commands only; copy commands, which read one URI and write
  another, are left out.
- MockStorages.MockStorage.Get: does not check modification times (`store/mock_storage.go:107-113`), because
  objects carry none.
- StorageTransactions.StorageTransaction.Prepare: says nothing exact about an armed failure whose code is
  NotFound, since what it does depends on which staged operation the map's order puts first.
- Reading the file system: directory creation and clean-up, permissions, listing by walking the tree, the
  bytes of a staged file after its process has crashed, and loss of unsynced data when the machine stops.
- File names that look like staged files.
- A negative MaxKeys, on which the program panics.
- The uint64 revision of an Object wrapping around, entities that share memory with the caller, and the
  parts of Update and CreateOrUpdate that are merely an edit between a load and a save: they are steps of
  their own in `ObjectSync`.
- GetMany, streams, Location helpers, option constructors and typed views: they would add easy members only.
