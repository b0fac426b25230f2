# Secretli, modelled and proved

Secretli keeps client-encrypted bundles in object storage and their records in Postgres. This project
models four of its parts in Dafny and proves what they promise over all inputs and all runs.

**Uploads, secrets and tombstones.** `Tables` holds the rows and every committed transaction as a function
on them; `SecretRepo` is the repository as an object whose methods change its maps row by row, each proved
to commit the transaction of that name; `Drain` is the cleanup worker's batch loop on that object.
`Lifecycle` puts the transactions, the storage calls, the row locks and the handlers' steps into one state
machine, in which any handler may stop anywhere, any transaction may be lost, or commit with its answer lost,
any storage request may take effect late, twice or never, and cleanup may work with an old clock reading.
`ObjectSafety` is its inductive invariant, `Executions` the theorems over whole executions, and `Story` what
a secret's links are told over every run of transactions. `Answers` says exactly when each read and each
transaction answers what, by the rows it depends on; `Origins` where every row comes from in a run, `Outcomes`
what a secret's link is told by what happened to it, and `Promises` the same of executions, by their steps.
`Progress` says that from every state an operation that nothing blocks can run to its promised end.

**The bundle format.** `Plan` lays files out in 4 MiB records, `Partition` seals them, builds the bundle in
memory and in parts (the command line's and the web app's partitioner), `Delivery` is the server that checks,
records and assembles parts, `Footer`, `Manifest` and `RangeHeader` are the byte- and string-level formats,
`Reader` and `CrossFile` the two coalescing readers, and `RoundTrip` runs the whole way.
Sealing is abstract: a record sealed under an associated value opens under the same one and is 40 bytes
longer. JSON is an abstract inverse pair and SHA-256 a function. What a server can do that answers readers
anything it likes is bounded by one assumption on its answers (`ForgesNothing`): no part of them opens under
an associated value to something the sharer did not seal under it.

**The short-code relay.** `Relay` is the mailbox table with its guarded statements, `TransferRepo` the
repository object and the handler that writes a leg once, `WakeUps` the waiter map, the listener and the
long-polls over that table.

**Length-value encoding.** `LengthValue` is the encoding of draft-irtf-cfrg-cpace-21 as the web app writes it.

`Bytes`, `Format`, `Sorting` and `Fates` hold shared definitions.

Results that differ from what one might expect of the code, each proved as an exact condition:

- A metadata request can be answered plain "not found" inside the promised week: `GetTombstone` looks for a
  tombstone and then for the row, and an expired row that leaves in between, by a cleanup batch or by its
  owner's deletion, is seen by neither (`AnswerKnown`, with runs in `GapOccurs`). Read in one step there is no
  gap (`NoGap`).
- A public id may be given to a new secret while a tombstone of an older one is kept. In every continuation
  that does not do so again under this id, the new secret's link is answered for its week, but for the race
  above, exactly if at its creation no tombstone is kept under its id, or one with the same token that is kept
  to the end of that week, or the week is over already (`CreationIsTold`); and its owner's deletion is told as
  that deletion exactly if none is kept or the week is over (`CreationIsToldTruly`). If the row
  leaves first, only the old tombstone ever answers, to the same token and until its own time
  (`ReusedIdIsForgotten`; `ReuseOccurs` is such a run from the empty tables, by deletion and by cleanup). What is
  told of a secret depends on its own public id only: other ids may be used again at any time.
- The Go footer parser admits the manifest length 2^53 and the TypeScript one does not: they differ exactly on
  the trailers with a good header whose length field holds that number.
- `validatePartPlacement` admits two kinds of placement that occur in no layout: part 1 at a nonzero offset
  (`MisplacedFirstAdmitted`), and a part whose end leaves 64 bits (`OverflowAdmitted`). Everything else it
  admits occurs in one. It turns away parts of a layout only for blobs whose size cannot be rounded up to
  whole parts in 64 bits, and then all but the first (`PlacementExact`).
- The 32-bit shift in `prependLen` writes the draft's length exactly below 2^32 bytes.
- `writeOnce` tells a caller refused twice that the other side has not written its part. At the first store
  that was so, whatever other requests did: the transfer was open, without this leg and without the one
  before it. When the answer is sent that leg is still missing exactly if no other request wrote it in
  between (`RefusedTwice`); in `AnsweredMeanwhile` one did, and closed the transfer.

## Model

| member | source | states |
|---|---|---|
| `Executions.SecretHasObject` | internal/adapter/httpserver/upload_handler.go:215-303 | in every execution a secret that is neither due for cleanup nor being deleted by its owner has its object in storage |
| `Executions.AbortedStaysAborted` | internal/adapter/postgres/dbsqlc/upload_sessions.sql.go:326-384 | a session that was ever aborted never becomes a secret, from then to the end of the execution |
| `Executions.DiscardHitsNoSecret` | internal/adapter/httpserver/upload_handler.go:286-303 | when discardUpload deletes an object, no secret holds its key then or later |
| `Executions.ReaderIsServed` | internal/adapter/postgres/secret_repo.go:66-152 | from the commit of a retrieval session until it or the secret expires, its reads find the same secret and its object, whatever cleanup does, unless its owner begins to delete it or a deletion begun for an earlier secret of the same id commits |
| `Executions.ExecutionTellsStory` | internal/cleanup/worker.go:73-140 | every execution is a run of timely transactions, each the one its step commits; so everything proved of stories holds of the machine |
| `Executions.LinkIsAnswered` | internal/adapter/httpserver/secret_handler.go:225-281 | in every execution a secret's link is answered live or gone up to a week past the expiry, but exactly for the race, if no secret is created under its own id over a kept tombstone |
| `Executions.DeletionIsToldEver` | internal/adapter/postgres/secret_repo.go:154-177 | likewise, from the commit of an owner's deletion of an unconsumed secret every query is told deleted at that time, not by an opening of the owner's, with the row's tokens and its first opening |
| `Promises.SecretIsUploadedEver` | internal/adapter/postgres/secret_repo.go:366-380 | in every execution a secret is created by the commit of a completed upload, with the tokens, one-time flag, expiry and object key its upload began with, and not yet retrieved |
| `Promises.OneTimeUpload` | internal/adapter/postgres/secret_repo.go:86-122 | in every execution a secret whose upload began as one-time is opened at most once |
| `Promises.GrantedExactlyEver` | internal/adapter/postgres/secret_repo.go:66-137 | in every execution a retrieval is granted if and only if the secret is there and unexpired, the blob token is its own, the session token is new, and it is reusable or was never opened |
| `Promises.ReadIsGrantedEver` | internal/adapter/postgres/dbsqlc/retrieval_sessions.sql.go:89-108 | in every execution a range request's read finds a secret only with a token that an earlier retrieval of this very secret was granted, while neither has expired |
| `Promises.LinkIsToldEver` | internal/adapter/httpserver/secret_handler.go:225-281 | in every execution, up to a week past the expiry, a link is shown the live row as uploaded, and from then on told opened, deleted by its owner and when, or expired, by the steps that were taken |
| `Executions.OneRetrievalEver` | internal/adapter/postgres/secret_repo.go:86-122 | in every execution, whatever public ids are used, two retrieval sessions of one one-time secret are the same one |
| `Executions.StoryMoves` | internal/adapter/postgres/secret_repo.go:179-226 | a step commits at most one transaction; a cleanup batch still holds only due rows when it commits, and only an owner's request deletes |
| `Executions.LostAnswer` | internal/adapter/httpserver/upload_handler.go:254-303 | an execution in which the commit goes through, its answer is lost, and the discard that follows leaves secret and object alone |
| `ObjectSafety.SafeNext` | internal/adapter/postgres/secret_repo.go:333-477 | every step of every handler keeps the invariant, and what was doomed or spent stays so |
| `ObjectSafety.CommitUntouched` | internal/adapter/postgres/secret_repo.go:333-407 | while a complete call that passed the expiry check holds the row, the session is still pending and nothing has asked to delete its key |
| `ObjectSafety.SafeDiscardAborts` | internal/adapter/httpserver/upload_handler.go:291-303 | the abort of a discard keeps the invariant, whether it finds the session pending, completed or gone, and also when its answer is lost |
| `ObjectSafety.SafeCommitUpload` | internal/adapter/httpserver/upload_handler.go:225-252 | a commit keeps the invariant, whether it is answered, loses its answer or finds the public id taken |
| `ObjectSafety.SafeLockSessions` | internal/adapter/postgres/dbsqlc/upload_sessions.sql.go:238-246 | a batch of expired sessions may be locked, also with an old clock reading: each of them can no longer become a secret, which every later step keeps |
| `Progress.UploadCanFinish` | internal/adapter/httpserver/upload_handler.go:215-252 | from every state a pending, unlocked upload within its time and with a free id can go on to be a secret with its object, while nobody else moves |
| `Progress.RefusedUploadCanGo` | internal/adapter/httpserver/upload_handler.go:272-303 | from every state an upload that storage refuses can be discarded: its session ends aborted and its object gone |
| `Progress.OwnerCanDelete` | internal/adapter/httpserver/secret_handler.go:189-223 | from every state a secret that is still to be had can be deleted by its owner, row, sessions and object, with the tombstone that says so |
| `Progress.CleanupCanFinish` | internal/adapter/postgres/secret_repo.go:179-226 | from every state a due secret that nobody holds locked can be cleaned up, with its object |
| `Progress.ExpiredUploadCanGo` | internal/adapter/postgres/secret_repo.go:437-477 | from every state an upload that ran out can be aborted by cleanup, with its object |
| `Answers.StartsExactly` | internal/adapter/postgres/secret_repo.go:66-137 | a retrieval is granted, not found, forbidden or a duplicate, each if and only if the rows say so; a reusable secret may be opened again |
| `Answers.StartWrites` | internal/adapter/postgres/secret_repo.go:94-137 | a grant adds its session, marks a one-time secret and a reusable one's first opening by a recipient, ends a one-time secret with a tombstone, and changes nothing else |
| `Answers.SessionReadsExactly` | internal/adapter/postgres/dbsqlc/retrieval_sessions.sql.go:89-108 | the read answers the row under the id if and only if the token's session is on it and neither has expired |
| `Answers.AnsweredExactly` | internal/adapter/httpserver/secret_handler.go:225-281 | for every token and three table states: live, gone and wrong token each if and only if the rows say so, and live only for the row's own token |
| `Answers.CompletesExactly` | internal/adapter/postgres/secret_repo.go:333-407 | each answer to a completion, and the rows it writes, field by field |
| `Answers.DeletesExactly` | internal/adapter/postgres/secret_repo.go:154-177 | a deletion takes the row and its sessions and records a deletion, unless a tombstone is kept |
| `Answers.ClashesExactly` | internal/adapter/postgres/secret_repo.go:236-268 | a session may begin if and only if its id is new and no pending one has its public id |
| `Answers.AbortsExactly` | internal/adapter/postgres/secret_repo.go:409-428 | each answer to an abort, and that only the pending session changes |
| `Answers.BatchAbortsExactly` | internal/adapter/postgres/secret_repo.go:437-477 | of the named sessions exactly the pending ones are aborted, at that time, and nothing else changes |
| `Answers.SessionsGoExactly` | internal/adapter/postgres/dbsqlc/upload_sessions.sql.go:123-127 | finished sessions go exactly when they ended before that time, pending ones never |
| `Answers.CleansExactly` | internal/adapter/postgres/secret_repo.go:179-226 | a batch takes its rows with their sessions and records the expired ones as expired at their expiry |
| `Answers.PurgesExactly` | internal/adapter/postgres/dbsqlc/secret_tombstones.sql.go:102-115 | retrieval sessions and tombstones go exactly when their time is over |
| `Origins.SecretIsUploaded` | internal/adapter/postgres/secret_repo.go:333-407 | in every run a secret is created by completing a pending session of its public id and carries what that was begun with |
| `Origins.RowIsUploaded` | internal/adapter/postgres/secret_repo.go:333-407 | every row there is was created so, and only its mark of retrieval may have changed |
| `Origins.ReadIsGranted` | internal/adapter/postgres/secret_repo.go:139-152 | in every run a range request is served only with a token granted for this very secret |
| `Origins.GrantedExactly` | internal/adapter/postgres/secret_repo.go:66-137 | in every run a retrieval is granted if and only if the secret is open to it, where "already retrieved" is an earlier opening of its key |
| `Origins.OpeningIsGranted` | internal/adapter/postgres/secret_repo.go:92-93 | every opening in a run comes from a grant, and counts as the owner's if and only if that gave the link's own deletion token |
| `Origins.OnePendingHolds` | internal/adapter/postgres/secret_repo.go:236-268 | in every run at most one upload session for a public id is pending |
| `Outcomes.OutcomeIsTold` | internal/adapter/postgres/secret_repo.go:571-639 | in every run, up to a week past the expiry, a tombstone query says opened, deleted or expired, with time, owner flag, tokens and first opening, exactly as the run has it |
| `Outcomes.LinkIsTold` | internal/adapter/httpserver/secret_handler.go:225-281 | so a link is shown the live row as uploaded, or told what ended it |
| `Story.AnswerKnown` | internal/adapter/httpserver/secret_handler.go:225-281 | up to a week past expiry a request with the right token is answered live or gone, except exactly when the row leaves between the two reads of GetTombstone; of ids it assumes only that none is created over a kept tombstone under the secret's own |
| `Story.NoGap` | internal/adapter/httpserver/secret_handler.go:225-281 | with GetTombstone as one step the answer is always live or gone |
| `Story.GapOccurs` | internal/adapter/postgres/secret_repo.go:571-604 | concrete runs, by cleanup and by the owner's deletion, in which the two reads of GetTombstone miss an expired secret |
| `Story.OneRetrieval` | internal/adapter/postgres/secret_repo.go:86-122 | over any run, whatever public ids are used, a one-time secret (known by its storage key) gets at most one retrieval session |
| `Story.ReusedIdIsForgotten` | internal/adapter/postgres/dbsqlc/secret_tombstones.sql.go:14-30 | in any run, when a row leaves by any event while a tombstone is kept under its id, the link is answered by that tombstone alone, to the same token and while it is in force, and plain not found otherwise |
| `Story.CreationIsTold` | internal/adapter/postgres/secret_repo.go:236-268 | every continuation of a run answers a new secret's link for its week, but for the race, if and only if no tombstone is kept under its id at the creation, or one with its token until the end of that week, or the week is over (a later creation over a kept tombstone under the same id apart) |
| `Story.CreationIsToldTruly` | internal/adapter/postgres/dbsqlc/secret_tombstones.sql.go:14-30 | every continuation tells an owner's deletion of the new secret as that deletion if and only if no tombstone is kept under its id at the creation, or the week is over (later reuse of the id apart) |
| `Story.ReuseOccurs` | internal/adapter/postgres/secret_repo.go:236-268 | a run from the empty tables in which a reused id's second secret is told plain not found within its week, after cleanup or deletion, with the first one's token or another; with another, the first one's link is refused while the second is there |
| `Story.RefusedChangesNothing` | internal/adapter/postgres/secret_repo.go:86-91 | a wrong blob token or a second opening changes neither tables nor history |
| `Story.OpenedIsTold` | internal/adapter/postgres/secret_repo.go:108-113 | until a week past expiry every tombstone query answers "opened" with the opening's time, owner flag and first-opened time, whatever was deleted or cleaned since |
| `Story.FirstOutcomeStays` | internal/adapter/postgres/dbsqlc/secret_tombstones.sql.go:14-30 | a recorded tombstone is kept unchanged until a week past the expiry |
| `Story.DeletionIsTold` | internal/adapter/postgres/secret_repo.go:154-177 | after an owner's deletion every query is told "deleted" at that time, with the row's tokens and its first opening by a recipient, or "opened" if the secret was consumed before |
| `Story.FirstOpeningIsTold` | internal/adapter/postgres/secret_repo.go:614-639 | whatever ended a reusable secret, its tombstone tells the first time somebody else than its owner opened it |
| `Story.CleanupInvisible` | internal/adapter/postgres/dbsqlc/secret_tombstones.sql.go:61-87 | for which query times the answer is the same before and after a cleanup batch, both ways |
| `Story.CleanupInvisibleForAWeek` | internal/domain/secret.go:29-41 | no answer about the week after the expiry is changed by a batch |
| `Story.TrackedCommit` | internal/adapter/postgres/secret_repo.go:606-639 | every timely transaction that creates no secret under p over a kept tombstone keeps what holds of p: what is gone has a tombstone kept a week past the expiry, and it is true |
| `SecretRepo.SecretRepo.StartRetrievalSession` | internal/adapter/postgres/secret_repo.go:66-137 | the new tables and the answer are those of the StartRetrieval transaction; granted if and only if the row is unexpired and not a retrieved one-time secret, the blob token its own and the session token new, with both refusals exact |
| `SecretRepo.SecretRepo.Delete` | internal/adapter/postgres/secret_repo.go:154-177 | the row and its retrieval sessions leave, and a tombstone is there that says deleted at that time, unless one was |
| `SecretRepo.SecretRepo.DeleteExpired` | internal/adapter/postgres/secret_repo.go:179-226 | the oldest due rows that nobody else holds locked, up to the limit, are tried; those whose callback did not fail leave together, with tombstones for the expired ones, unless the transaction rolls back; found and removed are their numbers, and a lost commit or answer is an error |
| `SecretRepo.SecretRepo.CreateTombstonesForExpiredSecrets` | internal/adapter/postgres/dbsqlc/secret_tombstones.sql.go:61-87 | exactly the expired rows among the ids without a tombstone get one |
| `SecretRepo.SecretRepo.CreateUploadSession` | internal/adapter/postgres/secret_repo.go:236-268 | a session is inserted exactly when no secret has the public id and neither key nor pending index clashes |
| `SecretRepo.SecretRepo.CompleteUploadSession` | internal/adapter/postgres/secret_repo.go:333-407 | the session becomes a secret with its own tokens, one-time flag, expiry and key exactly when it is pending, the callback succeeds and the public id is free; every other case changes nothing and answers as the source does |
| `SecretRepo.SecretRepo.AbortUploadSession` | internal/adapter/postgres/secret_repo.go:409-428 | only a pending session is aborted; not found and conflict are told apart |
| `SecretRepo.SecretRepo.AbortExpiredUploadSessions` | internal/adapter/postgres/secret_repo.go:437-477 | the oldest expired pending sessions that nobody else holds locked are tried, those whose callback did not fail are aborted, and both are counted |
| `SecretRepo.TakeOldest` | internal/adapter/postgres/dbsqlc/secrets.sql.go:210-227 | ORDER BY with LIMIT: distinct candidates, oldest first, and nothing older is left out |
| `Drain.DrainBatches` | internal/cleanup/worker.go:142-162 | ends; its count is the number of rows removed, or at most that if the last answer was lost; all batches together are one cleanup; with nothing locked no row leaves from behind a batch of older failing rows; and unless it is stopped or fails, every good row leaves, is locked elsewhere, or has a batch of failing rows no younger than itself |
| `Drain.FewFailuresDrainAll` | internal/cleanup/worker.go:142-162 | when nothing is locked elsewhere and fewer than 100 due rows fail, exactly those remain due |
| `Drain.DrainedHolds` | internal/adapter/postgres/dbsqlc/secrets.sql.go:210-227 | after a drain a secret whose object can be deleted is still there if and only if it is unexpired and, if one-time and opened, still being downloaded |
| `Drain.DueExactly` | internal/adapter/postgres/dbsqlc/secrets.sql.go:210-227 | a row is due if and only if it is expired, or a retrieved one-time secret with no retrieval session left unexpired |
| `Drain.CleanupTwice` | internal/adapter/postgres/secret_repo.go:207-221 | two batches at one time are one batch of both their rows |
| `Drain.DueAfterCleanup` | internal/adapter/postgres/dbsqlc/secrets.sql.go:210-227 | a batch makes no other row due and none no longer due |
| `RoundTrip.ShareAndOpen` | internal/share/share.go:248-343 | planning, sealing, splitting by either client, parts arriving in any order, repeatedly and overlapping, assembling, reading manifest and files gives back the bundle name and every file in order with its name, path, type and bytes, and succeeds exactly when the sources may be shared and all parts arrive |
| `RoundTrip.OpenBundle` | internal/share/share.go:449-498 | fetching through the cache, reading the manifest and decrypting every file restores the sources, with their names, paths and types; and whatever a server answers, short of forging a record, opening either fails or restores exactly that |
| `RoundTrip.PlannedFileReadable` | internal/share/bundle/writer.go:15-50 | every planned file's records lie back to back in the bundle and open to its bytes in order |
| `RoundTrip.PlannedFileGenuine` | internal/share/bundle/reader.go:105-124 | of what the sharer sealed for the bundle nothing else than its own bytes opens as a chunk of a file: index, position and size tell all records apart |
| `Plan.NewPlan` | internal/share/bundle/bundle.go:134-182 | the loops compute the closed-form layout, and fail exactly where the source does |
| `Plan.PlannedManifestValid` | internal/share/bundle/bundle.go:134-182 | every plan's manifest is valid for its own offsets |
| `Plan.EstimateEncryptedSize` | internal/share/bundle/bundle.go:197-204 | the estimate is the data size plus the largest manifest, its overhead and the footer |
| `Plan.EstimateBounds` | internal/share/bundle/bundle.go:197-204 | no plan is larger than its estimate |
| `Manifest.Validate` | internal/share/bundle/bundle.go:257-297 | accepts exactly the manifests whose chunks cover every byte before the manifest once and whose files' plaintext sums are their sizes, 64-bit wrap-around included |
| `Manifest.ValidExactly` | internal/share/bundle/bundle.go:257-297 | valid means: this format's header, numbered and shaped files and chunks, sizes that add up, every byte before the manifest in one chunk of one file and no other byte in any |
| `Manifest.AcceptsExactlyValid` | internal/share/bundle/bundle.go:257-297 | the checks over sorted, possibly wrapped spans are equivalent to that coverage |
| `Manifest.WalkDecidesCoverage` | internal/share/bundle/bundle.go:285-296 | the walk over sorted spans decides coverage once and only once, also for chunks whose end wraps |
| `Footer.FillFooter` | internal/share/bundle/bundle.go:218-229 | the buffer filled field by field is the footer's layout |
| `Footer.ParseInvertsEncode` | internal/share/bundle/bundle.go:218-247 | parsing inverts encoding exactly up to 2^53 |
| `Footer.EncodeInvertsParse` | internal/share/bundle/bundle.go:232-247 | every accepted trailer is reproduced in its first 56 bytes |
| `Footer.ParsersAgree` | web/frontend/src/lib/bundle.ts:304-321 | the Go and the TypeScript parser differ exactly on trailers with a good header whose bytes 16 to 24 are 2^53 |
| `Footer.ParsersDiffer` | web/frontend/src/lib/bundle.ts:463-476 | a well-formed trailer on which they differ |
| `Partition.Encrypt` | internal/share/bundle/writer.go:15-50 | the bundle built in memory is the sealed records, the sealed manifest and the footer, of the planned size |
| `Partition.Upload` | internal/share/share.go:248-343 | the command line's loop emits exactly the grouped and numbered parts |
| `Partition.EncryptAndQueueParts` | web/frontend/src/lib/multipartBundleUpload.ts:123-229 | the web app's loop, with its other bookkeeping, emits the same parts |
| `Delivery.StreamedIsEncrypted` | internal/share/share.go:268-333 | for any part size the streamed parts concatenate to what Encrypt builds |
| `Delivery.PlannedPartsAccepted` | internal/adapter/httpserver/upload_handler.go:133-158 | for files within the 1 GiB estimate every part passes the checks on arrival and the list is a layout of exactly the declared size |
| `Delivery.AdmittedExactly` | internal/adapter/httpserver/upload_handler.go:133-158 | a part is admitted if and only if its number and size are in bounds, it is not too early for its number, and it ends within the blob, at its end if it is short; part 1 alone where rounding the blob size up leaves 64 bits |
| `Delivery.GroupSizes` | internal/share/share.go:268-300 | with 32 MiB parts every part has between 1 byte and 33 MiB and all but the last S3's minimum |
| `Delivery.RecordUploadPart` | internal/adapter/postgres/secret_repo.go:286-331 | a recorded part never changes; a request that read the part's row is accepted exactly for the same placement and digest, and one that read no row exactly if none was inserted since |
| `Delivery.ReceiveParts` | internal/adapter/httpserver/upload_handler.go:133-213 | requests in any order, repeated and overlapping, record each part once with its content; exactly those are answered with a conflict whose part was recorded between their read and their insert |
| `Delivery.ServeUpload` | internal/adapter/httpserver/upload_handler.go:215-238 | the object storage assembles is the concatenation of the parts |
| `PartLayout.ValidateUploadParts` | internal/adapter/httpserver/upload_handler.go:408-442 | accepts exactly the lists that, sorted, lie back to back from 0 to the declared size, 64-bit sums included, and returns them in order |
| `PartLayout.LayoutPartsPlace` | internal/adapter/httpserver/upload_handler.go:444-467 | a part of an accepted layout is admitted early exactly if it is the first or the blob's size can be rounded up in 64 bits |
| `PartLayout.PlacementOccurs` | internal/adapter/httpserver/upload_handler.go:444-467 | every placement admitted early occurs in an accepted layout, but for part 1 at a nonzero offset and ends beyond 64 bits |
| `PartLayout.PlacementExact` | internal/adapter/httpserver/upload_handler.go:444-467 | both directions together, as an if and only if over all 64-bit values |
| `PartLayout.OverflowAdmitted` | internal/adapter/httpserver/upload_handler.go:444-467 | a part whose end wraps below zero is admitted and occurs in no layout |
| `PartLayout.MisplacedFirstAdmitted` | internal/adapter/httpserver/upload_handler.go:444-467 | a part 1 at a nonzero offset is admitted and occurs in no layout |
| `RangeHeader.RangeRoundTrip` | internal/adapter/httpserver/secret_handler.go:346-373 | of the ranges the client writes the server accepts exactly the servable ones, with the same bounds |
| `RangeHeader.HeaderExactly` | internal/adapter/httpserver/secret_handler.go:346-373 | of all headers exactly those that name one range of bytes by two plain integers are served, if servable, or else out of bounds; every other one is missing or malformed |
| `Reader.CachingFetcher` | internal/share/bundle/reader.go:18-35 | the cached fetcher answers every range as the one behind it, and adds no forgeries to what that one answers |
| `Reader.ReadManifest` | internal/share/bundle/reader.go:38-80 | returns a manifest exactly if the fetched footer points at bytes of its length and hash that open and decode to it, valid at that offset; and of a bundle it returns the planned manifest |
| `Reader.OnlyPlannedLocated` | internal/share/bundle/reader.go:38-80 | wherever a footer points, a server that forges nothing can have no other manifest accepted than the sharer's |
| `Reader.GrowGroup` | internal/share/bundle/reader.go:84-98 | the group is the longest that fits 16 MiB of plaintext |
| `Reader.DecryptFile` | internal/share/bundle/reader.go:84-128 | the groups partition the file's chunks in order, each within 16 MiB and a range the server accepts, and the written bytes are the file's; whatever else a fetcher answers, if no part of it opens as one of the file's chunks to other bytes than that chunk's, the file is written whole and right or not reported as read |
| `Reader.GenuineOpens` | internal/share/bundle/reader.go:105-124 | whatever bytes are fetched for a group, moved, cut or replayed, they open to the group's plaintext or not at all |
| `CrossFile.CoalesceChunks` | web/frontend/src/lib/bundle.ts:432-461 | the groups are the refs in order, each back to back and within the limit unless it has one chunk, and the next one begins only where the first cannot go on |
| `CrossFile.DecryptBundleFiles` | web/frontend/src/lib/bundle.ts:206-266 | for any limit and any selection of distinct files, in any order, each file comes back as its bytes; whatever a server answers, short of forging a record of these files, it fails or returns them |
| `CrossFile.GroupFetchedExactly` | web/frontend/src/lib/bundle.ts:227-233 | a group is fetched if and only if its range is answered with bytes of its length |
| `CrossFile.GroupServable` | web/frontend/src/lib/bundle.ts:226-230 | a group is a range the server accepts exactly when its plaintext and 40 bytes a record fit 128 MiB |
| `CrossFile.PlannedSelection` | web/frontend/src/lib/bundle.ts:206-266 | any files of a planned bundle are such a selection |
| `CrossFile.PlannedGenuine` | web/frontend/src/lib/bundle.ts:206-266 | a server that forges nothing has no other bytes to answer for any of its files |
| `Relay.AlwaysInv` | internal/adapter/postgres/transfer_repo.go:19-135 | in every run open transfers have distinct numbers within the limit, answered implies claimed, delivered implies answered and closed, and the reason is "done" exactly when delivered |
| `Relay.LegsWrittenOnce` | internal/adapter/postgres/dbsqlc/code_transfers.sql.go:14-264 | while a transfer is kept no leg and no close reason changes once set |
| `Relay.AlwaysSourced` | internal/adapter/postgres/dbsqlc/code_transfers.sql.go:14-264 | in every run everything set of a transfer was written by an earlier statement for it, while it was open and after the leg before: sender, offer and expiry, receiver, answer, delivery, and the reason and time it closed |
| `Relay.WritesExactly` | internal/adapter/postgres/dbsqlc/code_transfers.sql.go:14-220 | under the invariant each statement writes its leg if and only if its turn has come in an open transfer, and changes nothing else |
| `Relay.CreatesExactly` | internal/adapter/postgres/transfer_repo.go:19-59 | a new transfer holds what was sent and nothing else, and only expired ones are closed |
| `Relay.DeletesExactly` | internal/adapter/postgres/dbsqlc/code_transfers.sql.go:174-190 | exactly the transfers that ran out or were closed before that time go |
| `Relay.CreateTakesSmallest` | internal/adapter/postgres/dbsqlc/code_transfers.sql.go:253-264 | creation takes the smallest free number, and changes nothing when none is free or the id is used |
| `Relay.TakenMeansActive` | internal/adapter/postgres/dbsqlc/code_transfers.sql.go:105-111 | the numbers in use are those of transfers neither closed nor expired |
| `Relay.ClaimTouchesOne` | internal/adapter/postgres/dbsqlc/code_transfers.sql.go:46-54 | a claim changes at most one transfer, and only its receiver |
| `Relay.DeliveryRestsOnInvariant` | internal/adapter/postgres/dbsqlc/code_transfers.sql.go:190-199 | the delivery statement overwrites a delivery exactly in an open transfer, which the invariant excludes |
| `TransferRepo.TransferRepo.NextFreeNameplate` | internal/adapter/postgres/dbsqlc/code_transfers.sql.go:253-264 | the search finds the first free number |
| `TransferRepo.TransferRepo.CreateTransfer` | internal/adapter/postgres/transfer_repo.go:19-59 | expired transfers are closed and the new one gets the first free number, or everything is rolled back for the stated reason |
| `TransferRepo.TransferRepo.ClaimTransfer` | internal/adapter/postgres/transfer_repo.go:61-84 | the returned transfer is the only one changed; without one, a second statement after the requests of others decides: "already claimed" if a claimed, unexpired open transfer holds the number, "no transfer" if none does; failing statements and lost answers are errors |
| `TransferRepo.NoTransferTruly` | internal/adapter/postgres/transfer_repo.go:61-84 | after "no transfer" every transfer the claim found under the number has ended or is gone, whatever others did in between |
| `TransferRepo.ClaimedExactly` | internal/adapter/postgres/transfer_repo.go:61-84 | "already claimed" asks for a transfer under the number with a receiver, neither closed nor expired |
| `TransferRepo.TransferRepo.StoreLeg` | internal/adapter/postgres/transfer_repo.go:97-120 | reports true exactly when its guard held, and then the leg has this value; a failed store changes nothing and a lost answer may hide one |
| `TransferRepo.WriteOnce` | internal/adapter/httpserver/transfer_handler.go:280-317 | whatever becomes of the table in between and whichever statements fail: at most two stores, and the outcome and the table it leaves are functions of the tables found at the first store, the re-read and the second store |
| `TransferRepo.ToldTruly` | internal/adapter/httpserver/transfer_handler.go:280-317 | with any requests in between, success means that the stored leg is this value, "already written" that another one is, "gone" that the transfer has ended for the reason told; and the invariant is kept |
| `TransferRepo.RefusedWritesNothing` | internal/adapter/httpserver/transfer_handler.go:280-317 | only a success, or a store whose answer was lost, may leave the table other than it was found, and then only the leg |
| `TransferRepo.RefusedTwice` | internal/adapter/httpserver/transfer_handler.go:307-317 | with any requests in between, "the other side first" means that at the first store the transfer was open without this leg and the one before; the latter is still missing at the end exactly if no other request wrote it since |
| `TransferRepo.AnsweredMeanwhile` | internal/adapter/httpserver/transfer_handler.go:307-317 | a run in which the other side writes and closes after the re-read, and the caller is told it has not |
| `TransferRepo.ToldUndisturbed` | internal/adapter/httpserver/transfer_handler.go:280-317 | with no request in between and nothing failing, the outcome is fixed by the transfer alone |
| `WakeUps.NoLostWakeUp` | internal/adapter/httpserver/transfer_handler.go:322-360 | in every run of the relay's statements, polls and listener the waiter map holds the live subscriptions, and a poll whose transfer changed since it last read it has a signal pending, a notification queued or a listener still to catch up |
| `WakeUps.LegsWake` | internal/adapter/httpserver/transfer_handler.go:322-360 | so a stored answer, a delivery or a close is on its way to every poll that waits without having seen it |
| `WakeUps.SignalStays` | internal/adapter/postgres/transfer_events.go:139-145 | a signal stays until its poll takes it |
| `WakeUps.SignalHasCause` | internal/adapter/postgres/transfer_events.go:121-145 | no poll is woken for nothing: its signal was set, since it last took one, by a notification of its transfer or by catching up |
| `WakeUps.ListenerWakes` | internal/adapter/postgres/transfer_events.go:93-119 | a wake-up that is on its way arrives by steps of the listener alone, be it reconnecting, catching up or behind |
| `WakeUps.WokenPollSees` | internal/adapter/httpserver/transfer_handler.go:322-360 | a woken poll that takes its signal and reads has the transfer as it is |
| `WakeUps.WakeReachesExactly` | internal/adapter/postgres/transfer_events.go:121-127 | a wake signals every poll on its transfer and leaves all others as they were |
| `WakeUps.CatchUpReachesAll` | internal/adapter/postgres/transfer_events.go:129-137 | catching up after a reconnect signals every poll there is, and no other channel |
| `WakeUps.TransferEvents.Subscribe` | internal/adapter/postgres/transfer_events.go:42-62 | a new channel joins the transfer's waiters |
| `WakeUps.TransferEvents.Unsubscribe` | internal/adapter/postgres/transfer_events.go:54-61 | the channel leaves, and the entry with its last one |
| `WakeUps.TransferEvents.Wake` | internal/adapter/postgres/transfer_events.go:121-127 | exactly the transfer's channels get a signal |
| `WakeUps.TransferEvents.WakeAll` | internal/adapter/postgres/transfer_events.go:129-137 | every waiting channel gets a signal |
| `LengthValue.PrependLen` | web/frontend/src/lib/cpace.ts:38-46 | the loop writes the shifted length, then the data |
| `LengthValue.PrefixExact` | web/frontend/src/lib/cpace.ts:38-46 | that is the draft's LEB128 length exactly below 2^32 |
| `LengthValue.ReadAllInvertsLvCat` | web/frontend/src/lib/cpace.ts:48-50 | a list of any number of fields, each below 4 GiB, is recovered from its encoding |
| `LengthValue.LvCatInjective` | web/frontend/src/lib/cpace.ts:48-50 | equal encodings come from equal lists of fields below 4 GiB |
| `LengthValue.TranscriptIrInjective` | web/frontend/src/lib/cpace.ts:106-113 | equal transcripts have equal messages and associated data |
| `LengthValue.GeneratorStringFillsBlock` | web/frontend/src/lib/cpace.ts:52-58 | the first three fields fill one 128-byte block exactly when prefixed password and separator fit 127 bytes |
| `LengthValue.GeneratorStringInjective` | web/frontend/src/lib/cpace.ts:52-58 | equal generator strings have equal password, channel and session |

## Left out

- Ciphers, key derivation, hashes and group arithmetic: abstract functions with the laws stated above; the
  associated values of records are a datatype instead of their text.
- JSON text, base64url, hexadecimal and MIME handling, default bundle names.
- HTTP routing, rate limits, headers other than Range, configuration, metrics, logging and all user interface.
- The TypeScript manifest validator and planner: the Go ones are modelled.
- ClearUploadParts and the parts table inside the lifecycle machine: a complete call's part check may succeed
  or fail at will there; the parts themselves are in the delivery model.
- Freedom from orphaned objects: the code does not promise it, and a failed last delete leaves one.
- The separate existence check before a session is inserted is in `SecretRepo` only; the lifecycle machine
  allows a session for an existing secret, which its commit then refuses.
- Executions.SecretHasObject: a deletion by the owner counts from its authentication, because the object is
  deleted before the row.
- Story.AnswerKnown, Story.OpenedIsTold and the other theorems about what is told of a secret: from its creation
  on, no secret is created under its own id over a kept tombstone; `Story.CreationIsTold` shows that this is
  needed. The theorems about objects and single retrieval assume nothing about ids.
- Drain.DrainBatches: ties in expiry are broken anyhow.
- RoundTrip.ShareAndOpen: bundles whose size does not fit 62 bits are excluded; the 1 GiB limit is far below.
- CrossFile.DecryptBundleFiles: the fetcher answers every range, or the server's ranges when the limit and 40
  bytes for each record stay within one range of 128 MiB.
- TransferRepo.ToldTruly: other requests never create a transfer under the same id again.
- TransferRepo.RefusedTwice: likewise.
- The listener's reconnect delays, poll deadlines and request authentication of the relay.
- Manifests no planner writes: reading one can end in Go's slice panic, which is an error value here.
