# FFgif: its protocols, modelled and proved

FFgif is a web service that turns uploaded videos into GIFs. It has no single algorithm at its heart; it is a
set of small protocols over shared stores: Redis entries with a time to live, Postgres rows with locks,
constraints and cascades, and RabbitMQ queues with acknowledgement, requeue and dead-lettering. This project
models those protocols and proves what they keep, with failure possible at every call and with calls of
different requests interleaved in any order.

Most protocols come twice:

- as a **machine** on values: a `State`, an `Event` for each step a request, a handler or a store can take,
  a total `Step` function (an event that cannot happen changes nothing) and `Run` over a sequence of events.
  The theorems quantify over every sequence of events, that is, over every interleaving and every failure;
- as a **class** with the source's own methods, which read and assign their fields step by step. Their
  contracts say that the new state is the machine's state after the events the call contributes, or a closed
  form of it, so what is proved of the machine holds of these bodies. The main operations also state their answers
  and what they leave in each store literally, in terms of the stored fields.

How a call to a store ends is an `Outcome`: `Done`; `Lost`, failed without effect; or `Unsure`, failed after
taking effect. Clocks, random ids and the answers of the transcoder are parameters.

| file | protocol |
|---|---|
| `TokenBucket.dfy`, `RateLimiter.dfy` | the rate limiter: the script's arithmetic on thousandths of a token, key expiry, the middleware |
| `GifVersions.dfy`, `GifService.dfy` | optimistic edits of a GIF row under READ COMMITTED |
| `Cache.dfy`, `Keys.dfy` | the shared Redis cache and its key families; upload keys |
| `Conversion.dfy`, `JobStatus.dfy`, `DeletedAccounts.dfy`, `JobRows.dfy`, `JobOutcomes.dfy`, `QuotaLedger.dfy`, `ConversionScripts.dfy`, `ConversionService.dfy` | conversion jobs: cache entries, job rows, how they end, GIF rows, quota, and what deleting an account does to them |
| `SaveQueue.dfy`, `SaveWorker.dfy` | the save-metadata queue, its retry and dead-letter queues, the worker |
| `Accounts.dfy`, `AccountRaces.dfy` | sign-up, verification tokens, resend, verify, account deletion; verify and resend call by call |
| `Blocklist.dfy` | logout and the token check of every request |
| `Uploads.dfy`, `UploadService.dfy` | upload keys, the processing worker, upload status |
| `Shares.dfy`, `ShareService.dfy` | shares and download permission |
| `Seeding.dfy` | the seeder's loops and batches |
| `Pages.dfy` | pagination of the GIF list |

Where a property is not true of the code in every case, the exact condition is proved for all inputs, with a
failing case beside it:

- versions return, and two edits of one version commit, exactly when the transactions that wrote the rows they
  replaced started at the same time (`GifVersions.VersionsCoincideExactly`, `GifVersions.EditsShareVersionExactly`;
  failing case `GifVersions.SharedStartLetsTwoEditsThrough`);
- in orderly runs a conversion reported as completed turns "failed", and parts from its done row, exactly when its
  insertion or increment fails and the "failed" write reaches the cache (`JobOutcomes.CacheAndRowPartExactly`;
  `JobOutcomes.LateFailureHappens`); in any run an entry stops saying "completed" exactly by the writes named in
  `JobOutcomes.CompletedIsLostExactly`;
- a job row falls back, goes, or changes once finished, exactly by the events of `JobOutcomes.RowFallsBackExactly`
  (`JobOutcomes.RedeliveryHappens`, `JobOutcomes.UnsurePublishHappens`);
- an account comes to be verified and still have a verifier exactly when a verification commits after its row was
  replaced, or a resend inserts after its user was verified (`AccountRaces.LeftoversExactly`;
  `AccountRaces.ResendInsideVerifyHappens`, `AccountRaces.VerifyInsideResendHappens`);
- a request passes after a logout exactly when its blocklist read succeeds after the entry's last millisecond
  (`Blocklist.LogoutIsFinal`, `Blocklist.HeldUpCheckExactly`; `Blocklist.HeldUpCheckPasses`);
- with working reads, "last video not found" is answered exactly when the key passes the owner check, its entry says
  "ok", and either the caller's account was deleted or the key has no colon and names another user, and the caller
  has no row (`Uploads.NotFoundExactly`; `Uploads.DeletedAccountHearsNotFound`, `Uploads.ColonlessKeyMayBeNotFound`);
- a good message becomes a dead letter exactly by the rejection that follows a republish after a stat failed with one
  particular text (`SaveQueue.GoodIsDeadLetteredExactly`; `SaveQueue.GoodMessageDies`).

Where the repository's README and the code disagree, the model follows the code: the upload status that means
"ready" is `ok`; a job row starts as `queued`; `Process` writes "completed" before it inserts the GIF row; and
a failed stat whose error text is exactly `invalid user id` makes the worker dead-letter a good message.

Nothing was executed.

## Model

| member | source | states |
|---|---|---|
| `TokenBucket.LevelIsLeastSlack` | internal/infra/redis/rate_limiter/rate_limiter.go:20-46 | The level a call finds is the minimum, over every window that ends with it, of `capacity + rate * T` minus the admissions in the window; attained, and without any assumption on the clock |
| `TokenBucket.AdmittedExactlyWhenEveryWindowAllows` | internal/infra/redis/rate_limiter/rate_limiter.go:33-46 | A call is admitted if and only if admitting it keeps every window it closes within `capacity + rate * T` |
| `TokenBucket.WindowsStayWithinAllowance` | internal/infra/redis/rate_limiter/rate_limiter.go:25-46 | Every window holds at most `capacity + rate * T` admissions: if its last call was admitted whatever the clock does, and always if the clock does not run backwards |
| `TokenBucket.WaitIsLeastDelay` | internal/infra/redis/rate_limiter/rate_limiter.go:40-46 | After a refusal a lone later call is admitted exactly when it comes at least `wait_ms` later, and `wait_ms` is at least 1 |
| `TokenBucket.RemainingIsWholeTokens` | internal/infra/redis/rate_limiter/rate_limiter.go:33-46 | The reported token count is what the call leaves in the bucket, in whole tokens |
| `TokenBucket.RefusalsAreFree` | internal/infra/redis/rate_limiter/rate_limiter.go:25-46 | Deleting any refused call from a history leaves the whole answer of every other call as it was |
| `TokenBucket.RefusalLeavesNoTrace` | internal/infra/redis/rate_limiter/rate_limiter.go:25-28 | After a refused call, every later call finds the level it would have found without it |
| `TokenBucket.LevelsStayWithinBucket` | internal/infra/redis/rate_limiter/rate_limiter.go:25-38 | For a clock that does not run backwards the stored level is between zero and the capacity |
| `TokenBucket.IdleKeyIsFull` | internal/infra/redis/rate_limiter/rate_limiter.go:30-31 | A key untouched for its time to live has refilled completely |
| `TokenBucket.TtlIsLeast` | internal/infra/redis/rate_limiter/rate_limiter.go:30-31 | The time to live is the least one of at least six seconds in which an empty bucket fills up |
| `RateLimiter.ForgettingIsInvisible` | internal/infra/redis/rate_limiter/rate_limiter.go:20-46 | After any history of calls by all clients, the answer computed from the expiring store is the one a bucket that never forgets would give |
| `RateLimiter.ServerIsIdealPerKey` | internal/infra/redis/rate_limiter/rate_limiter.go:9-46 | Every answer of the server is the answer of the client's own ideal bucket at that client's own calls |
| `RateLimiter.WaitIsHonest` | internal/infra/redis/rate_limiter/rate_limiter.go:40-46 | A refused client that stays quiet is admitted exactly from `wait_ms` on, whatever other clients do meanwhile |
| `RateLimiter.RefusedHitsAreFree` | internal/infra/redis/rate_limiter/rate_limiter.go:20-46 | On the expiring store of all clients: deleting any refused call of any client leaves the answer of every other call as it was |
| `RateLimiter.OtherKeysDoNotCount` | internal/infra/redis/rate_limiter/rate_limiter.go:61-70 | Calls of other clients do not enter a client's history |
| `RateLimiter.Redis.RunScript` | internal/infra/redis/rate_limiter/rate_limiter.go:9-47 | The script, statement by statement, replies what the bucket of that key answers and stores its next bucket with a fresh time to live, leaving every other key alone |
| `RateLimiter.DecodingIsExact` | internal/transport/http/middleware/rate_limiter.go:81-124 | Decoding gives back the script's answer, and fails exactly on replies that do not carry three numbers first |
| `RateLimiter.NumbersAreTruncated` | internal/transport/http/middleware/rate_limiter.go:93-104 | Whole numbers decode to themselves, fractions lose what is behind the point, everything else is an error |
| `RateLimiter.RetryAfterIsLeastCover` | internal/transport/http/middleware/rate_limiter.go:59-64 | `Retry-After` (section 10.2.3 of RFC 9110) is the least whole number of seconds that covers the wait, and at least 1 |
| `RateLimiter.ClientIsToldExactly` | internal/transport/http/middleware/rate_limiter.go:40-71 | After any history of calls by all clients: the request is forwarded exactly if every window that it closes stays within `capacity + rate * T`; else it gets 429, and `Retry-After` is the least number of whole seconds after which the client, if it keeps quiet, is admitted; the headers carry the rate, the whole tokens left and the time |
| `RateLimiter.Middleware.SetLimit` | internal/transport/http/middleware/rate_limiter.go:73-125 | A lost call changes nothing; a reply lost after the script ran is an error that has spent a token; otherwise the decoded result is the bucket's answer and the store has moved by exactly this call |
| `RateLimiter.Middleware.Limit` | internal/transport/http/middleware/rate_limiter.go:40-71 | An internal error exactly when the address is bad or the call to the store fails; else forwarded exactly if the bucket holds a whole token, on any history exactly if every window fits, and 429 with the least `Retry-After` otherwise; the headers are spelled out for both; the store moves exactly if the script ran |
| `GifVersions.VersionsCoincideExactly` | internal/infra/postgres/gif_repo.go:109-142 | Over every interleaving and with no assumption on the clock, two rows in the history have the same `updated_at` exactly when the transactions that wrote them started at the same time |
| `GifVersions.VersionsNeverReturn` | internal/infra/postgres/gif_repo.go:109-142 | So, with distinct transaction start times, no replaced `updated_at` ever returns over any interleaving of edits, download counts, saves and deletes |
| `GifVersions.EditReplacesWhatItsCallerRead` | internal/app/media/update.go:26-44 | A committed edit that names the version of a row somebody once read replaced exactly that row and nothing newer |
| `GifVersions.EditsShareVersionExactly` | internal/app/media/update.go:26-44 | With no assumption on the clock, two committed edits name one version exactly when the writers of the rows they replaced started together |
| `GifVersions.OneEditPerVersion` | internal/app/media/update.go:26-44 | Of all edits that name one version at most one is ever committed |
| `GifVersions.ConcurrentEditsAreSerial` | internal/infra/postgres/gif_repo.go:109-142 | The row is the initial row with the committed requests applied in commit order; `download` is its initial value plus the committed counts; the owner never changes |
| `GifVersions.EveryChangeFieldByField` | internal/infra/postgres/gif_repo.go:102-142 | For every committed change of every run, field by field: an edit sets exactly the fields its patch names and keeps the others, saving only sets `persist`, a download only adds one to `download`, each stamps its transaction's start time, and only a deletion leaves no row |
| `GifVersions.RunKeepsInv` | internal/infra/postgres/transaction_manager.go:48-71 | In every reachable state one transaction at most holds the row lock, it saw the committed row, and each log entry replaced the row before it |
| `GifVersions.ScriptCommits` | internal/app/media/update.go:26-44 | A transaction that nobody interferes with commits, unless it is an edit of another version |
| `GifVersions.SharedStartLetsTwoEditsThrough` | internal/infra/postgres/gif_repo.go:66-82 | That happens: with a shared start time there is a run in which two edits of one version both commit |
| `GifService.Database.GetByKeyForUpdate` | internal/infra/postgres/gif_repo.go:66-82 | Locks the row and returns what is committed |
| `GifService.Database.Update` | internal/infra/postgres/gif_repo.go:109-128 | Writes the row with the fields the patch names, each in its own place, and the others kept, with the transaction's start time, visible only after the commit |
| `GifService.Database.Commit` | internal/infra/postgres/transaction_manager.go:70 | Publishes the transaction's row, logs the change and frees the lock |
| `GifService.Database.Rollback` | internal/infra/postgres/transaction_manager.go:66-69 | Leaves the row as it was and frees the lock |
| `GifService.Database.Execute` | internal/infra/postgres/gif_repo.go:102-142 | A statement outside a transaction is a transaction of its own; what it leaves is spelled out field by field |
| `GifService.MediaService.Update` | internal/app/media/update.go:13-56 | With other requests running between the owner check and the lock, and while waiting for it: succeeds exactly for the owner of a row that is still there at the named version and no failed call, and then answers the patched row; "not found", "not the owner" and "stale" each exactly for its cause; otherwise the row is as the others left it, except after a commit that took effect before it was reported as failed |
| `Cache.RenderedIsInjective` | internal/app/media/convert.go:55-65 | Two different cache entries never share a key string, whatever characters the ids contain |
| `Cache.RedisCache.Set` | internal/infra/redis/cache/cache.go:22-29 | Replaces the value and the expiry of one entry and touches no other |
| `Cache.RedisCache.Get` | internal/infra/redis/cache/cache.go:31-40 | Separates a live value, a missing or expired entry, and a failed read |
| `Cache.WhatWasPutIsRead` | internal/infra/redis/cache/cache.go:22-40 | What was written is read back until its last millisecond and not after; a write leaves every other entry alone |
| `JobStatus.OwnerEntryExpiresFirst` | internal/app/media/convert.go:55-68 | For every job whose `Convert` returned, under any interleaving with `Process`, the status and the GIF entry live as long as the owner entry does |
| `JobStatus.StatusIsExact` | internal/app/media/conversion_status.go:22-68 | In every reachable state, for every job, caller and fault: the owner gets the cached status and GIF if the owner and the status entry can be read, else what the job row says if it can be read; "not the owner" comes exactly for another user whose owner entry or row is read, and the two cache errors exactly when neither store answers |
| `JobStatus.StatusIsSound` | internal/app/media/conversion_status.go:22-68 | Every answer about a returned job goes to the user who asked for it, and one that says the work is finished carries a key that one of the job's own runs produced, never a placeholder; it lacks the key only when the GIF entry cannot be read |
| `Conversion.GifKeyIsNoPlaceholder` | internal/infra/ffmpeg/processor_repo.go:62 | A key as the transcoder names it differs from every placeholder |
| `JobStatus.LateGifReadIsSound` | internal/app/media/conversion_status.go:33-41 | The reads need not be simultaneous: after a status read of "completed" a GIF read any number of events later finds a produced key or nothing, never the placeholder |
| `JobStatus.ProducedGifStaysForever` | internal/app/media/run_conversion.go:34-41 | Once the GIF entry of a returned job holds a produced key, it holds a produced key in every later state |
| `JobStatus.ReachableInv` | internal/app/media/run_conversion.go:15-44 | Entry nesting, produced keys and row shapes hold together in every reachable state |
| `JobRows.RowsHaveFourShapes` | internal/infra/postgres/job_repo.go:20-58 | Every row is (queued, 0), (processing, 20), (done, 100, key) or (failed, 0), even when best-effort updates are dropped |
| `JobRows.RowsOnlyAdvance` | internal/app/media/run_conversion.go:20-44 | With each message delivered once and failed publishes not queued, a row is there exactly until its user's account is deleted; its rank never decreases and done or failed rows never change again |
| `JobRows.RowGoesWithItsUser` | migrations/000015_create_jobs_table.up.sql:1-3 | In any run a row is gone once its user's account is deleted, and the calls and deliveries still under way never bring it back |
| `DeletedAccounts.DeletedAccountOwnsNothing` | migrations/000009_create_gif_table.up.sql:1-4 | In every reachable state a deleted account has no job, GIF or quota row, although its `Convert` calls and `Process` runs go on: the foreign keys turn their late inserts away |
| `JobRows.RedeliveryReopensRow` | internal/worker/converter_worker.go:56-82 | A second delivery takes any row, even a finished one, back to (processing, 20), so single delivery is needed above |
| `JobOutcomes.CompletedWhilePast` | internal/app/media/run_conversion.go:39-61 | In every orderly run a conversion that got past "completed" and has not failed is reported as completed |
| `JobOutcomes.CacheAndRowPartExactly` | internal/app/media/run_conversion.go:39-61 | In every orderly run, from a conversion past "completed" over every orderly continuation: the entry ends at "failed" if and only if the insertion or the increment fails and the "failed" write reaches the cache, at "completed" otherwise; a done row stays done unless its user's account is deleted |
| `JobOutcomes.CompletedIsLostExactly` | internal/app/media/run_conversion.go:15-61 | In every reachable state, orderly or not, an entry that says "completed" stops saying so exactly by a "processing" or "failed" write of a run of the job or by the undo of its `Convert` |
| `JobOutcomes.LateFailureHappens` | internal/app/media/run_conversion.go:53-61 | An orderly run from the initial state that ends with the cache at "failed" and the row at "done" |
| `JobOutcomes.RowFallsBackExactly` | internal/app/media/run_conversion.go:20-44 | In every reachable state, orderly or not: a row goes exactly with its user's account, its rank falls exactly by a "processing" update of a finished row, and a finished row changes exactly by that, by a "failed" update of a done row or by a "done" update that says something else |
| `JobOutcomes.RedeliveryHappens` | internal/worker/converter_worker.go:56-82 | A run from the initial state in which only the delivery is repeated and a done row goes back to (processing, 20) |
| `JobOutcomes.UnsurePublishHappens` | internal/app/media/convert.go:79-90 | A run from the initial state in which only the publish is reported as failed although it queued, and the undo takes a done row to "failed" |
| `QuotaLedger.UsageStaysWithinLimits` | internal/infra/postgres/quota_repo.go:39-57 | Over every run `used_bytes <= total_bytes` and `gif_count <= gif_limit`; until the account is deleted its row stays, its counts never fall and its limits never change |
| `QuotaLedger.RefusalIsPermanent` | internal/app/media/convert.go:32-38 | A user whom `Convert` refuses with a readable quota is refused in every later state in which the account is still there |
| `QuotaLedger.EveryGifIsAccountedFor` | internal/app/media/run_conversion.go:53-64 | In every reachable state the GIFs ever created for a user are the recorded ones, the refused, lost and abandoned ones and those of runs between insertion and increment; while the account exists they are also the live plus the deleted ones and the quota row holds the recorded count, so deleting gives nothing back; afterwards neither is left |
| `ConversionScripts.RefusedExactly` | internal/app/media/convert.go:32-38 | `Convert` goes no further exactly for a readable quota row whose count is positive and at its limit |
| `ConversionScripts.AcceptedJobIsQueued` | internal/app/media/convert.go:55-95 | From any state: a conversion that is not refused, of an existing account, whose calls succeed, leaves the three entries for five minutes, the queued row and the message, and changes nothing else |
| `ConversionScripts.FailedPublishIsUndone` | internal/app/media/convert.go:79-90 | After a failed publish the status and the GIF entry and the row say "failed", each if its own write is not lost; the message is there exactly if the publish took effect all the same |
| `ConversionScripts.FailedTranscodingIsTold` | internal/app/media/run_conversion.go:15-32 | After a failed transcoding the row and the status entry end at "failed", each if its own write is not lost, and no GIF and no quota row changes |
| `ConversionScripts.UnpublishedConversionStops` | internal/app/media/run_conversion.go:15-42 | A run whose entries cannot be written just stops, with its row at (processing, 20) and no GIF or quota row changed |
| `ConversionScripts.PublishedConversionEnds` | internal/app/media/run_conversion.go:34-66 | From any state, for every way the later calls end: a run that gets to its insertion leaves the GIF key in its entry, "completed" or, exactly if it fails afterwards and can say so, "failed" in the status entry, a done row, the GIF exactly if the key was free and the account exists, and one more in the quota row exactly if it has room |
| `ConversionService.MediaService.Convert` | internal/app/media/convert.go:22-95 | The call is a run of the machine's `Convert`; "not the owner", the quota error (exactly a readable row whose count is positive and at its limit), a cache, a row and a queue error each exactly for its cause; else it answers "queued" and the three entries, the queued row and the message are there; a publish that fails is undone, even if it queued |
| `ConversionService.MediaService.UndoConvert` | internal/app/media/convert.go:83-90 | After a failed publish both entries and the row are set to "failed", best effort |
| `ConversionService.MediaService.Process` | internal/app/media/run_conversion.go:13-67 | One delivery is a run of the machine's `Process`; success and each of the four errors exactly for its cause; on success the entries say "completed" and name the GIF, which is the user's; a failed transcoding leaves "failed" in the entry and in the row |
| `ConversionService.MediaService.Handle` | internal/worker/converter_worker.go:56-85 | A delivery is acknowledged exactly when all its counting calls succeeded, the key is new and the account exists; a garbled one changes nothing |
| `ConversionService.MediaService.CreateJob` | internal/infra/postgres/job_repo.go:20-34 | Inserts the row unless the account was deleted, or resets an existing one and keeps its user |
| `ConversionService.MediaService.UpdateStatus` | internal/infra/postgres/job_repo.go:49-58 | Overwrites status, progress and key of an existing row, and creates none |
| `ConversionService.MediaService.CreateGif` | internal/infra/postgres/gif_repo.go:21-30 | Inserts the row unless its key exists or the account was deleted |
| `ConversionService.MediaService.IncrementUsage` | internal/infra/postgres/quota_repo.go:39-57 | Both counters move together, exactly when both stay within their limits, and the answer tells which |
| `SaveQueue.DeadLetterLinksEnd` | internal/infra/rabbitmq/setup.go:96-244 | Following dead-letter links from any queue ends after at most two hops in a declared queue that forwards nothing; only the retry queue leads back to the save queue |
| `SaveQueue.EveryQueueHasItsPartner` | internal/infra/rabbitmq/setup.go:13-18 | Each of the five queues dead-letters to its own ".dead" queue, which forwards nothing, except the retry queue, which lets messages expire after a second into the save queue |
| `SaveQueue.RabbitMQ.Setup` | internal/infra/rabbitmq/setup.go:41-94 | Succeeds exactly when the broker turns down neither the channel, the exchange, the binding nor any of the ten queues, and then has declared exactly the topology with the upload queue bound to the exchange |
| `SaveQueue.RabbitMQ.DeclareUploadProcessQueue` | internal/infra/rabbitmq/setup.go:205-232 | Declares the exchange, then the queue, then the binding, and fails at the first that is turned down |
| `SaveQueue.PoolIsBounded` | internal/worker/save_metadata_worker.go:29-56 | Running handlers never exceed `concurrency` over every run, nor do unacknowledged deliveries unless it is zero, which means no limit to the broker |
| `SaveQueue.EveryCopyIsAccountedFor` | internal/infra/rabbitmq/setup.go:150-191 | At every step of every run and for every body: copies ready, in the retry queue, unacknowledged, acknowledged and dead are the published plus the republished ones |
| `SaveQueue.GoodMessagesAreNeverLost` | internal/worker/save_metadata_worker.go:58-90 | A message is acknowledged only after a save of it, a bad one never; live and acknowledged copies of a good message never number fewer than its publications |
| `SaveQueue.DeadLettersAreBad` | internal/worker/save_metadata_worker.go:66-80 | Unless a stat fails with the very text "invalid user id", only garbled bodies and bad user ids are dead-lettered |
| `SaveQueue.GoodIsDeadLetteredExactly` | internal/worker/save_metadata_worker.go:66-80 | In every reachable state a copy of a good message becomes a dead letter exactly when its handler rejects a delivery the broker still knows, and a handler comes to reject it exactly by a successful republish after a stat failed with that text |
| `SaveQueue.GoodMessageDies` | internal/app/media/save_metadata.go:18-24 | That happens, in a run from the empty queues |
| `SaveQueue.FailedStatAddsOneCopy` | internal/app/media/save_metadata.go:18-24 | A failed stat with a queued republish leaves, once settled, exactly one more live copy; with the text "invalid user id" the original is dead-lettered and the copy takes its place |
| `SaveQueue.ExpiryMovesOne` | internal/infra/rabbitmq/setup.go:177-191 | A message that expires in the retry queue moves to the save queue, neither made nor lost |
| `SaveQueue.DeliversExactly` | internal/infra/rabbitmq/consumer.go:31 | The broker delivers the first ready message exactly while fewer are unacknowledged than the prefetch count, or the count is zero |
| `SaveQueue.RetryWaitsOneSecond` | internal/infra/rabbitmq/setup.go:177-191 | A republished message goes back from the head of the retry queue exactly once a second has passed |
| `SaveWorker.SaveVideoWorker.SaveMetadata` | internal/app/media/save_metadata.go:12-37 | The steps are the machine's; success exactly when the stat and the upsert succeed, with the row of the user replaced; the error decides what the handler does next |
| `SaveWorker.SaveVideoWorker.Handle` | internal/worker/save_metadata_worker.go:58-90 | The handler is a run of the machine; it acknowledges exactly messages with a proper id whose stat and upsert succeed, rejects exactly garbled bodies, improper ids and the unlucky error text, and replaces the user's row exactly if the upsert took effect |
| `SaveWorker.SaveVideoWorker.SettleDelivery` | internal/worker/save_metadata_worker.go:60-88 | Ack removes the delivery, nack moves it to the dead queue or back into the save queue; a tag the broker took back is ignored |
| `SaveWorker.OnlyTheStatAloneReadsInvalidUser` | internal/worker/save_metadata_worker.go:70-80 | A joined or wrapped error never has the text "invalid user id" |
| `Accounts.AccountsStayWhole` | internal/app/auth/signup.go:25-86 | With each service call taken whole and whatever store call fails: one verifier at most per user and per hash, none for a verified user, and exactly one profile and one quota per account |
| `Accounts.OnlyTheLatestMailWorks` | internal/app/auth/verify.go:13-31 | Of all tokens mailed to an address only the last can work, and only for the unverified account with that address |
| `Accounts.TokensWorkOnce` | internal/app/auth/verify.go:24-30 | After a committed verification the token is dead in every later state |
| `Accounts.DeadTokensStayDead` | internal/infra/postgres/auth_repo.go:175-183 | A token that was drawn and does not work never works again: expired, replaced, used or deleted |
| `Accounts.ResendThenVerify` | internal/app/auth/resend_verify.go:28-48 | From every state with an unverified account, after a resend and any calls that leave the account alone, the new token verifies it exactly until it is 30 minutes old |
| `Accounts.VerifyLeavesReplacedRow` | internal/app/auth/verify.go:13-30 | Of the commit of a verification alone: the account it verifies has a verifier afterwards exactly when its row is no longer the one that was found |
| `Accounts.ResendInsideVerify` | internal/app/auth/resend_verify.go:28-48 | A whole resend between the two halves of a verification leaves a verified account with a verifier, from every state with a working token |
| `AccountRaces.TablesStayWhole` | migrations/000002_create_verifier_table.up.sql:1-7 | In every interleaving of the single calls of `Verify` and `ResendVerify` with sign-ups and deletions: one verifier at most per user and per hash, each of an existing user, and exactly one profile and one quota per account |
| `AccountRaces.LeftoversExactly` | internal/app/auth/resend_verify.go:16-48 | In every such state a call makes an account a verified one with a verifier exactly when it commits a verification whose row was replaced since it was found, or inserts the row of a resend for a user verified since the resend checked |
| `AccountRaces.LeftoversHaveCauses` | internal/app/auth/verify.go:13-31 | A run in which neither happens leaves no verified account with a verifier |
| `AccountRaces.ResendInsideVerifyHappens` | internal/app/auth/verify.go:15-30 | A run from the start with a resend between the halves of a verification |
| `AccountRaces.VerifyInsideResendHappens` | internal/app/auth/resend_verify.go:16-48 | A run from the start with a verification between the check and the insert of a resend, whose new token works |
| `AccountRaces.WholeResendIsMoves` | internal/app/auth/resend_verify.go:15-61 | The single calls of a resend in a row are the whole call |
| `AccountRaces.WholeVerifyIsMoves` | internal/app/auth/verify.go:13-31 | The single calls of a verification in a row are the whole call, for every failure in its transaction |
| `Accounts.AuthService.Signup` | internal/app/auth/signup.go:24-101 | Adds the four rows, an unverified account and a token of half an hour among them, exactly when the address is free and the commit took effect; succeeds exactly when the address is free and no call fails, and then the token was mailed and works |
| `Accounts.AuthService.InsertAccount` | internal/app/auth/signup.go:25-86 | The transaction's function succeeds exactly when the address is free and no call fails; a failed lookup ends in a failed insert |
| `Accounts.AuthService.ResendVerify` | internal/app/auth/resend_verify.go:15-61 | Old row out, new row of half an hour in, mail sent; the old row is not put back if a later call fails; "no such user" and "already verified" exactly for those; without failures it succeeds exactly for an unverified account |
| `Accounts.AuthService.Verify` | internal/app/auth/verify.go:13-31 | Succeeds exactly with a working token and no failed call, and then exactly the user of its row is verified and that row is gone; a failure in its transaction rolls back, except a commit that took effect before it was reported as failed |
| `Accounts.AuthService.CreateVerifier` | internal/infra/postgres/auth_repo.go:164-173 | The insert respects the foreign key and both UNIQUE constraints |
| `Accounts.AuthService.GetByHash` | internal/infra/postgres/auth_repo.go:175-183 | Finds an unexpired row with the hash, or reports that there is none |
| `Blocklist.RoundingLeavesNoGap` | internal/app/auth/logout.go:12-17 | An entry written any time after its time to live was computed is live at every instant before the token expires, although Redis is given whole milliseconds rounded down |
| `Blocklist.AcceptedExactlyUntilLogout` | internal/transport/http/middleware/auth.go:26-56 | In every reachable state a request checked at one instant passes if and only if the token is signed and unexpired, no logout wrote its entry, and the store answers |
| `Blocklist.LogoutIsFinal` | internal/app/auth/logout.go:10-21 | After a successful logout a later request with the token passes, in any run, if and only if its token was still valid at the first check and its read of the blocklist succeeds after the last millisecond of the entry it meets; that is never before `exp` (section 4.1.4 of RFC 7519) |
| `Blocklist.DecisionsAreExact` | internal/transport/http/middleware/auth.go:41-53 | In every reachable state every decision was exact: a bad token fails, and a read passes if and only if it succeeds and meets no entry or one that is over |
| `Blocklist.HeldUpCheckExactly` | internal/transport/http/middleware/auth.go:26-53 | For every delay of the entry, of the request and between its two checks: it passes if and only if the read succeeds after the entry's last millisecond |
| `Blocklist.HeldUpCheckPasses` | internal/transport/http/middleware/auth.go:26-53 | Such a request exists for every token |
| `Blocklist.Tokens.Logout` | internal/app/auth/logout.go:10-21 | The call is the machine's logout; it succeeds exactly when the token had expired or the write is done, and the entry it writes lives for what was left of the token, in whole milliseconds |
| `Blocklist.Tokens.Auth` | internal/transport/http/middleware/auth.go:15-58 | The call is the machine's two-step check; each verdict exactly for its cause: no header, an unsigned token, an expired one, a live entry, an unreadable store; accepted otherwise |
| `Blocklist.Tokens.VerifyToken` | pkg/jwt/jwt.go:66-88 | Accepts exactly signed tokens before the second they expire |
| `Keys.MintedKeyNamesItsUser` | internal/app/media/upload.go:27 | For ids without a colon, the separator finds the user of a minted key, and the owner check passes for that user and nobody else |
| `Keys.SeparateStopsAtColon` | internal/app/media/process_and_save.go:61-63 | The separator returns the text before the first colon |
| `Keys.Ext` | internal/app/media/upload.go:15-18 | The extension is the suffix from the last dot of the last path element, empty exactly if there is none |
| `Uploads.NotFoundExactly` | internal/app/media/status.go:15-42 | In every reachable state, with working reads, for a caller id without a colon: "last video not found" exactly when the key passes the owner check, its live entry says "ok", the id is a UUID, and either the account was deleted or the key, having no colon, names another user and the caller has no row |
| `Uploads.MembersMayHearNotFoundExactly` | internal/app/media/status.go:15-42 | The keys about which a caller with an account can ever be answered "not found" are exactly those without a colon that read as another user's id |
| `Uploads.DeletedAccountHearsNotFound` | migrations/000008_create_last_upload_table.up.sql:1-3 | For every minted key: its video handled and then the account deleted, and the owner is answered "not found" |
| `Uploads.MintedKeyIsReadyWhenOk` | internal/app/media/status.go:15-42 | For a minted key only its owner passes; the answer is "not found" exactly when the entry says "ok" and the account was deleted since, and "ok" otherwise comes with the video last saved for that user by either writer of the table |
| `Uploads.AcknowledgedMeansSaved` | internal/worker/processing_worker.go:91-106 | A notification is acknowledged only once the user of its key has a `last_upload` row, which lives as long as the account |
| `Uploads.OversizedVideosAreNeverSaved` | internal/app/media/process_and_save.go:36-38 | Over every run, every row the processing worker saved was for a video within the size limit |
| `Uploads.RowsAreLastSaves` | internal/infra/postgres/gif_repo.go:152-174 | Over every run the row of a user is the last save for that user, by the processing worker or by the save-metadata worker |
| `Uploads.UploadedVideoIsServed` | internal/worker/processing_worker.go:83-114 | From upload to playback: a video handled without failure is served to its owner for five minutes and reported "failed" afterwards |
| `Uploads.StatusSaysWhereItIs` | internal/worker/processing_worker.go:83-90 | While its handler works the status of a key is "processing", and right after an upload it is "uploading" |
| `Uploads.NotifiedVideoEnds` | internal/worker/processing_worker.go:83-114 | For every key, video and save: when the status writes and the settlement succeed, the notification is acknowledged and the status is "ok" exactly if the key names an account, the video was read, its size is a number within the limit and the row was written; else the status is "failed" and, unless the write took effect, no row changes |
| `Uploads.ColonlessKeyMayBeNotFound` | internal/app/media/status.go:16-18 | For every such key, one video handled under it is enough, from the initial state and with both accounts there |
| `UploadService.MediaService.Upload` | internal/app/media/upload.go:14-47 | Rejects exactly the names without a proper extension; each other failure exactly for its cause: a used-up quota, the storage, the cache; a success answers the user, the id and the extension as the key, and has seeded its status for five minutes |
| `UploadService.MediaService.UpdateUploadingStatus` | internal/app/media/update_upload_status.go:9-12 | Writes the status entry of the key for five minutes |
| `UploadService.MediaService.Separate` | internal/app/media/process_and_save.go:61-63 | The loop computes the separator's text |
| `UploadService.MediaService.ProcessAndSave` | internal/app/media/process_and_save.go:16-59 | Succeeds exactly for a non-empty key whose text before the colon is the id of an account, a video that could be read, a size that is a number within the limit, and a row that was written; the row changes exactly if that write took effect |
| `UploadService.MediaService.Status` | internal/app/media/status.go:15-42 | Every answer exactly for its cause: the owner check, the cache, the entry's own text unless it says "ok", "failed" without a live entry, a failed query (also for a caller id that is no UUID), the last video or none |
| `UploadService.MediaService.Handle` | internal/worker/processing_worker.go:59-115 | The handler is a run of the machine; it ends well exactly when the key names an account, the size is within the limit and all its calls succeed |
| `Shares.SharesFollowOwners` | internal/infra/postgres/share_repo.go:21-32 | In every reachable state each share belongs to its GIF's owner, refers to existing rows, and is the only one for its GIF and recipient, even when checks and writes interleave with deletions |
| `Shares.DownloadFollowsPolicy` | internal/app/media/download.go:13-29 | The two lookups, with any calls in between, pass exactly if the caller owned the GIF at the first or holds a running grant at the second |
| `Shares.DownloadIsPolicy` | internal/app/media/download.go:13-29 | In one instant the test is the policy read off the history: owner, or the last decision about the two was a grant not yet expired |
| `Shares.GrantsComeFromOwners` | internal/app/share/create.go:29-48 | The grant behind a download was made by the GIF's owner and nothing was decided about the two since |
| `Shares.HoldingIsStanding` | internal/infra/postgres/share_repo.go:99-108 | A live share row exists exactly when the history leaves an unexpired grant standing between existing parties |
| `ShareService.Database.Create` | internal/app/share/create.go:16-49 | Without lookup failures succeeds exactly for a future expiry, a known address, the GIF's owner and a successful write, and then the recipient holds a live share; each refusal exactly for its cause |
| `ShareService.Database.UpsertShare` | internal/infra/postgres/share_repo.go:21-32 | Moves the expiry of the existing row or inserts one, and fails when a row it refers to is gone |
| `ShareService.Database.GetShareOwner` | internal/infra/postgres/share_repo.go:99-108 | The owner named by an unexpired share of this GIF with this recipient |
| `ShareService.Database.Delete` | internal/app/share/delete.go:11-24 | Succeeds exactly when the caller owns the GIF, the share is live and no call fails, and then the recipient holds none; an expired one is "not found"; the check and the deletion are two steps of the machine |
| `ShareService.Database.Download` | internal/app/media/download.go:13-43 | Without failures succeeds exactly when the policy allows it, counting the download once; "not found" and "not allowed" exactly for their causes; a failed storage link is reported after the download was counted |
| `ShareService.Database.DeleteGif` | internal/app/media/delete.go:13-31 | Succeeds exactly for the owner without failed calls; the shares go with the row and nobody may download any more |
| `Seeding.InsertInBatches` | cmd/bootstrap/cmd/seed.go:245-293 | The statements insert exactly the rows, in order, in the least number of batches, and each placeholder names its own row's field |
| `Seeding.SeedFriendships` | cmd/bootstrap/cmd/seed.go:471-513 | The friendships are exactly the drawn pairs of different users, no self pair and no unordered pair twice; each is what the first draw that joined the two made of it, pending or accepted, and the accepted ones are returned in order |
| `Seeding.Befriend` | cmd/bootstrap/cmd/seed.go:486-511 | Appends the record of the draw exactly if it picked somebody else and the two are not joined yet |
| `Seeding.PairKeyIsInjective` | cmd/bootstrap/cmd/seed.go:492-496 | Two pairs of ids without colons never share a key |
| `Seeding.SeedGifs` | cmd/bootstrap/cmd/seed.go:311-373 | The totals noted before a user's GIFs are made are the count and the byte sum of the GIFs made |
| `Seeding.SeedQuotas` | cmd/bootstrap/cmd/seed.go:420-447 | One quota row per user, in order, with what that user's GIFs take up |
| `Seeding.SeededUsersFitTheirQuota` | cmd/bootstrap/cmd/seed.go:317-322 | A seeded user stays within the byte quota and below the GIF limit |
| `Pages.GetGifs` | internal/app/media/get.go:17-36 | Clamps page and limit, and returns that window of the list |
| `Pages.PagesTileTheList` | internal/infra/postgres/gif_repo.go:32-54 | For any limit, pages 1 to ceil(n/limit) concatenate to the whole list and every later page is empty |
| `Pages.RowIsOnItsPageOnly` | internal/app/media/get.go:17-25 | Row i is on page i/limit + 1, at place i mod limit, and on no other page |

## Left out

- Floating-point rounding in the Lua script: levels are exact integers, thousandths of a token, and rate and capacity are at least 1.
- ffmpeg, MinIO, SMTP and the client libraries: their calls are outcomes of events.
- bcrypt, SHA-256, JWT signatures and UUID generation: injective constructors, fresh numbers, or maps given to the model; only the time to live of Redis entries is rounded as the client library does.
- The GIF row's other columns (size, width, url and so on), and the error message column of job rows.
- The per-user mutex of `Convert`: the theorems hold for any interleaving, with or without it.
- Redis eviction under memory pressure and broker or database restarts; a lost connection to the broker is modelled (unacknowledged messages return).
- JWT checking and Redis share one clock; a drift between the two is not part of this model.
- `JobRows.RowsOnlyAdvance`: assumes single delivery and that a failed publish queued nothing, because rows do move back otherwise; `JobOutcomes.RowFallsBackExactly` needs neither.
- `GifVersions.VersionsNeverReturn`: assumes distinct start times, because the code has no other source of versions; `GifVersions.VersionsCoincideExactly` needs no assumption.
- `Accounts.AccountsStayWhole`: takes each service call as one step, with any one of its store calls failing; `AccountRaces.TablesStayWhole` and `AccountRaces.LeftoversExactly` take the calls apart, without the order of the mails.
- Integer widths: `page * limit` and the byte counters are unbounded here.
- Password reset and sharing by token, whose lookups compare an unhashed value with a stored hash.
- The quoting of ETags between `GET` and `Update`; the model compares the version value itself.
- `retryCount` and `maxRetries`, which no worker uses, and the email worker.
- The receive loops of the workers are events (deliver, receive, spawn, return) of the queue machine, not loops.
- Seeded shares, some of which have no expiry and are of no use to anybody, share tokens, and the random choice of GIF names and states.
- Friend requests, profile updates, routing, configuration and migrations other than the constraints named above.
