# A verified model of the prompt cache

The repository is a cache of 128-token prompt blocks in blob storage: a storage library with
multi-version writes (`KVService/src/AzureStorageKVStoreLibV2.cpp`), a gRPC service in front of it, a
client, and a playground that cuts conversations into blocks. This project models its protocols and
codecs in Dafny and proves what they guarantee, for every interleaving and every input.

- `WriteProtocol`, `WriteInvariant`, `WriteTheorems`, `WriteDuplicates`, `WriteOverlaps` (with runs built
  from `WriteScenarios`): any number of writers share blobs named after tokens. A step is one blob
  operation; writers interleave freely, may fail at any operation and may stop forever. `log` is the
  list of commits of a blob, kept for the statements only.
- `WriteAsync`: the write as the program runs it, loop by loop, on a container whose version lists are
  text and which other writers change between any two operations. It is proved to be a run of the
  protocol, so the theorems hold of it.
- `VersionCodec`, `Strings`, `BlobNames`, `RegionMap` (with `Modulo`): the text formats, with the
  find-based parsers as loops proved against functions, and round trips for the functions.
- `Lookup`, `LongestChain`, `DeadEnd`, `EndToEnd`, `Conversation`: the lookup loop, its declarative
  meaning, when its choice is the best one, and the end-to-end results with writers, readers and the
  playground's buffer.
- `TokenBuffer`, `HashOrder`, `Playground`: the buffer object and the turn loop of the playground, its
  block hash, and what its marked answers do for them.
- `StreamReactor`, `StreamClient`: the bidirectional read stream, server and client.
- `StoreCache`, `StoreConfigs`, `StoreResolver`: the cache of store objects with its double check, and
  the cache of account configurations below it.
- `NicRoundRobin`: the shared interface index and the bind attempts.

Where the code does not give what one might expect, the model keeps the code. The project then shows a
run or an input where the expectation fails and states, for all inputs, exactly when it holds:

- The lookup can take a dead end (`DeadEnd.GreedyCanStopShort`: a container brought about by writes).
  `LongestChain.LongestExactly` says when its chain is the longest one, `LongestWhateverFollows` when it
  stays so whatever block follows; content-determined hashes are one such case (`GreedyIsLongest`).
- Two overlapping writes of one pair can list it twice, because a retry does not repeat the duplicate
  check (`OverlapListsTwice`). `DuplicatePossible` says exactly from which states, and
  `NoDuplicateVersions` covers all runs without such an overlap.
- After a failed stream write the RPC can be finished again (`FinishedTwice`); `FinishCount` gives the
  exact count for every stream at rest.
- A cache hit while tokens wait in the buffer breaks the buffer's account, and nothing else does
  (`HitNeedsEmptyBuffer`); `FlushKeepsWhole` says the same of a failed flush. In the playground, whose
  answers carry the run's identifier, such a hit needs another run to have cached a block with this
  run's own answer: `Playground.HitOnWaitingTokens` shows that case, `RunIsCoherent` that
  every other run with successful flushes and sound answers keeps an exact account.
- A `|` in a resource name can make two pairs share one store object (`DifferentPairsCanShare`); the
  colliding pairs are characterised (`KeysCollide`, `SameStore`).
- Two account calls for one resource can overwrite a cached configuration (`AccountCallsCanReplace`);
  `ChangesExactlyWhen` says in which states that can still happen.
- A call binds from the interface it read before its swap succeeded, so two neighbouring turns can start
  at the same interface (`NeighboursCanMeet`, `StartsAtItsTurn`).

## Model

| member | source | states |
|---|---|---|
| WriteInvariant.StepKeeps | KVService/src/AzureStorageKVStoreLibV2.cpp:682-869 | every operation of every writer keeps the protocol invariant and extends what was recorded: commit logs only grow, default versions, name owners and finished calls stay |
| WriteInvariant.VictimIsOld | KVService/src/AzureStorageKVStoreLibV2.cpp:805-821 | the version an evicting writer deletes is the commit 60 places before the writer's ETag, recorded by another, finished call on the same blob; it is no default blob, and what stays is the tail to be committed |
| WriteTheorems.ListedVersionsExist | KVService/src/AzureStorageKVStoreLibV2.cpp:777-849 | in every reachable state each listed version's blob exists, except possibly the front of a list of exactly 60; no list exceeds 60, although eviction deletes before it commits |
| WriteTheorems.NoLostUpdates | KVService/src/AzureStorageKVStoreLibV2.cpp:777-849 | a blob's list is the last min(60, N) of its N commits in order, and the log holds each successful append once, at its position, and nothing else |
| WriteTheorems.DefaultVersionIsForever | KVService/src/AzureStorageKVStoreLibV2.cpp:697-708 | a default blob is never deleted and its hash, parent, location and buffer never change; commits are only appended |
| WriteTheorems.RetryReplacesList | KVService/src/AzureStorageKVStoreLibV2.cpp:780-802 | every retry finds the version list in the metadata, so the stale local list is always replaced and the new version, not yet in it, is pushed once |
| WriteTheorems.BoundedOperations | KVService/src/AzureStorageKVStoreLibV2.cpp:777-864 | however writers interleave, a call never performs more blob operations than its point in the code allows, 17 from the start |
| WriteTheorems.GivingUpNeedsFiveCommits | KVService/src/AzureStorageKVStoreLibV2.cpp:777-864 | a writer that gives up overlapped at least five commits on its blob, none its own; with at most four and no storage error of its own a write that ends is recorded, and it ends within 17 operations |
| WriteDuplicates.NoDuplicateVersions | KVService/src/AzureStorageKVStoreLibV2.cpp:734-802 | when writes of the same name and pair do not overlap, the default pair and the listed pairs of a blob are pairwise distinct, with all other writes interleaving |
| WriteDuplicates.QuietStep | KVService/src/AzureStorageKVStoreLibV2.cpp:734-802 | each operation keeps the versions distinct and keeps every writer past its duplicate check absent from them |
| WriteOverlaps.DuplicatePossible | KVService/src/AzureStorageKVStoreLibV2.cpp:697-802 | two calls with one name and pair, free to overlap and acting alone from any reachable state, can leave a version listed twice if and only if the blob exists when they begin and, unless it has such a version already, their pair is not among its versions; full lists are included |
| WriteOverlaps.OverlapListsTwice | KVService/src/AzureStorageKVStoreLibV2.cpp:777-802 | so on the blob of any tokens, from the empty container, once its first version is another pair |
| WriteScenarios.AddsVersion | KVService/src/AzureStorageKVStoreLibV2.cpp:719-849 | a write of a new pair that meets no other write can always complete, on a full list too: its version is then the last commit, and of the other blobs only its own is new |
| WriteAsync.Container.UploadIfAbsent | KVService/src/AzureStorageKVStoreLibV2.cpp:697-717 | the conditional upload conflicts exactly when the blob exists and changes nothing then |
| WriteAsync.Container.SetMetadata | KVService/src/AzureStorageKVStoreLibV2.cpp:826-846 | the guarded update succeeds exactly when the ETag is the current one, keeps the buffer and renews the ETag |
| WriteAsync.Container.TryCreate | KVService/src/AzureStorageKVStoreLibV2.cpp:692-717 | the first upload fails exactly when its operation fails; on an absent name it returns and the blob is there with the given hash, parent and buffer; on an existing one it falls through to the multi-version path |
| WriteAsync.DuplicateCheck | KVService/src/AzureStorageKVStoreLibV2.cpp:734-759 | a duplicate exactly when the pair is the default one or listed; otherwise the parsed list is the list in the metadata |
| WriteAsync.Container.CheckExisting | KVService/src/AzureStorageKVStoreLibV2.cpp:719-759 | the read and the duplicate check leave ETag, metadata and list of the moment of the read, or end the call; with a storage error exactly when the read fails |
| WriteAsync.Container.UploadVersion | KVService/src/AzureStorageKVStoreLibV2.cpp:761-774 | the version's own blob is uploaded under the generated name before the list is touched; with a storage error exactly when the upload fails |
| WriteAsync.Container.DeleteOldest | KVService/src/AzureStorageKVStoreLibV2.cpp:807-820 | the blob of the front version is deleted exactly when the delete succeeds, nothing else changes, and the front leaves the list either way |
| WriteAsync.Container.EvictOldest | KVService/src/AzureStorageKVStoreLibV2.cpp:804-821 | what remains is the last min(60, n) of the n versions, on a run of the protocol's deletes |
| WriteAsync.Container.Refetch | KVService/src/AzureStorageKVStoreLibV2.cpp:780-802 | a retry works on the ETag, metadata and list of its own read, with the new version added once; it fails exactly when the read fails |
| WriteAsync.Container.Commit | KVService/src/AzureStorageKVStoreLibV2.cpp:823-863 | success records the call, a mismatch leads to a retry or, on the fifth attempt, to giving up, and a storage error comes from the operation only |
| WriteAsync.Container.RetryLoop | KVService/src/AzureStorageKVStoreLibV2.cpp:776-864 | the retry loop performs exactly the operations of the protocol and ends recorded, given up after five attempts, or failed by its last operation |
| WriteAsync.Container.WriteAsync | KVService/src/AzureStorageKVStoreLibV2.cpp:682-870 | the whole call, on version lists kept as text and with any steps of other writers between its operations, moves the container exactly as the protocol does for the chunk named after the tokens; leaving by a `return` statement means that the pair is recorded; without a failing operation and with a fresh generated name it returns unless five commits of others reached the blob meanwhile; on an absent name the blob is there afterwards with the given hash, parent and buffer |
| WriteAsync.GaveUpMetFive | KVService/src/AzureStorageKVStoreLibV2.cpp:851-863 | a call that gives up met, since it began, five commits of other calls on its blob |
| WriteAsync.TurnsReach | KVService/src/AzureStorageKVStoreLibV2.cpp:682-870 | what a call does, operation by operation and with others between, is a run of the protocol |
| WriteAsync.OthersCanRun | KVService/src/AzureStorageKVStoreLibV2.cpp:682-870 | every run of other writers can take place between two operations of a call |
| VersionCodec.ParseAdditionalVersions | KVService/src/AzureStorageKVStoreLibV2.cpp:238-281 | the scanning loop terminates on every text and computes the parser function, wrapped positions and exceptions included |
| VersionCodec.SerializeAdditionalVersions | KVService/src/AzureStorageKVStoreLibV2.cpp:299-314 | the printing loop computes the printer function |
| VersionCodec.ParseItem | KVService/src/AzureStorageKVStoreLibV2.cpp:256-274 | the three fields of one printed entry are read back |
| VersionCodec.RoundTrip | KVService/src/AzureStorageKVStoreLibV2.cpp:238-314 | parsing what was printed gives the list back, for all lists with 64-bit hashes and locations free of quotes and closing braces |
| VersionCodec.PrintAppend | KVService/src/AzureStorageKVStoreLibV2.cpp:299-314 | the text of a list: brackets around the entries and a comma between neighbours |
| VersionCodec.MissingKeys | KVService/src/AzureStorageKVStoreLibV2.cpp:256-269 | a missing key does not stop the parser: its field then starts at position 7, 13 or 11 of the object |
| VersionCodec.PrintedLength | KVService/src/AzureStorageKVStoreLibV2.cpp:299-314 | n entries with generated locations print to at most 115 n + 1 characters, so to at most 6901 at the cap of 60 |
| VersionCodec.GuidText | KVService/src/AzureStorageKVStoreLibV2.cpp:284-296 | generated names have 33 characters and nothing that could break the printed list |
| VersionCodec.SameGuid | KVService/src/AzureStorageKVStoreLibV2.cpp:284-296 | two generated names are equal only when both random halves are |
| VersionCodec.GuidAt | KVService/src/AzureStorageKVStoreLibV2.cpp:284-296 | a generated name in full: sixteen zero-filled lower-case hexadecimal digits of the first half, a dash, sixteen of the second |
| Strings.StoullDecimal | KVService/src/AzureStorageKVStoreLibV2.cpp:272-273 | a printed 64-bit hash is read back by the number parser |
| Strings.StoullNumber | KVService/src/AzureStorageKVStoreLibV2.cpp:272-273 | a number with text after it is read up to the text; 2^64 and more is an exception |
| Strings.StoullSigned | KVService/src/AzureStorageKVStoreLibV2.cpp:272-273 | a sign is accepted, and a negated value wraps around |
| BlobNames.EncodeTokensToBlobName | KVService/include/AzureStorageKVStoreLibV2.h:57-68 | the encoding loop computes the name function: four big-endian bytes a token, base64url |
| BlobNames.DecodeBlobNameToTokens | KVService/include/AzureStorageKVStoreLibV2.h:71-84 | the decoding loop computes the inverse function and fails on malformed text only |
| BlobNames.DecodeBase64 | KVService/include/AzureStorageKVStoreLibV2.h:67-72 | base64url decoding inverts encoding on all byte sequences |
| BlobNames.DecodeName | KVService/include/AzureStorageKVStoreLibV2.h:57-84 | decoding an encoded name gives the low 32 bits of every token |
| BlobNames.DecodeTokens | KVService/include/AzureStorageKVStoreLibV2.h:57-84 | token i comes back modulo 2^32, so tokens below 2^32 come back unchanged |
| BlobNames.NameBytes | KVService/include/AzureStorageKVStoreLibV2.h:61-65 | the bytes behind a name are each token's value divided by 2^24, 2^16, 2^8 and 1, modulo 256, in this order |
| BlobNames.LetterIsInAlphabet | KVService/include/AzureStorageKVStoreLibV2.h:67 | the URL-safe alphabet in order |
| BlobNames.GroupBits | KVService/include/AzureStorageKVStoreLibV2.h:67 | four letters hold the 24 bits of three bytes, high bits first |
| BlobNames.GroupAt | KVService/include/AzureStorageKVStoreLibV2.h:67 | where the letters of each group of three bytes stand in a name |
| BlobNames.KnownNames | KVService/include/AzureStorageKVStoreLibV2.h:57-68 | some names in full |
| BlobNames.SameName | KVService/include/AzureStorageKVStoreLibV2.h:57-68 | two token sequences share a name exactly when they agree modulo 2^32 |
| BlobNames.NameIsInjective | KVService/include/AzureStorageKVStoreLibV2.h:57-68 | on tokens below 2^32 the name determines the tokens |
| BlobNames.NameIsNoGuid | KVService/include/AzureStorageKVStoreLibV2.h:57-68 | no token name has a length of 1 modulo 4, so none equals a generated name |
| Lookup.BlockNames | KVService/src/AzureStorageKVStoreLibV2.cpp:501-507 | the names asked for are those of the full blocks, in order |
| Lookup.NamesOfSlices | KVService/src/AzureStorageKVStoreLibV2.cpp:482-507 | these are the names of the full slices of 128 tokens |
| Lookup.FindParent | KVService/src/AzureStorageKVStoreLibV2.cpp:583-594 | the scan returns the first listed version with the expected parent |
| Lookup.PickVersion | KVService/src/AzureStorageKVStoreLibV2.cpp:561-608 | the branches on list, block number and parent compute the choice function, parser exceptions included |
| Lookup.Lookup | KVService/src/AzureStorageKVStoreLibV2.cpp:474-622 | the loop returns the report of the chain function, for every answer of the properties requests |
| Lookup.ReportAgrees | KVService/src/AzureStorageKVStoreLibV2.cpp:610-614 | the block count is the number of locations and at most the full blocks; the last hash is the last location's, or 0 |
| Lookup.ChainIsGreedy | KVService/src/AzureStorageKVStoreLibV2.cpp:549-615 | block 0 takes its default version, each later block the first of default and listed versions whose parent is the hash chosen before, and the chain stops only where none fits |
| LongestChain.LongestExactly | KVService/src/AzureStorageKVStoreLibV2.cpp:549-615 | for every answer of the store, the greedy chain is the longest linked choice of versions if and only if the block at which it stops continues no linked choice for the blocks before it |
| LongestChain.LongestWhateverFollows | KVService/src/AzureStorageKVStoreLibV2.cpp:549-615 | a chain that covers all blocks stays the longest whatever readable block follows, if and only if every linked choice for these blocks ends in the same hash |
| LongestChain.GreedyIsLongest | KVService/src/AzureStorageKVStoreLibV2.cpp:549-615 | so when hashes are determined by content, no other choice of versions gives a longer chain |
| DeadEnd.GreedyCanStopShort | KVService/src/AzureStorageKVStoreLibV2.cpp:573-600 | four writes of three consecutive blocks bring about a container on which the lookup of these tokens stops at the second block although a linked chain of three is there |
| EndToEnd.LookupThenRead | KVService/src/AzureStorageKVStoreLibV2.cpp:610-671 | a version offered in one reachable state and still present in a later one reads back with its hash and parent and with the data of a write of that block's name |
| EndToEnd.ReportReadsBack | KVService/src/AzureStorageKVStoreLibV2.cpp:549-671 | every location a lookup reports and that is still there at a later moment reads back with the hash reported, the hash reported before it as parent, and the data of a write of that block's name |
| EndToEnd.ListedStaysReadable | KVService/src/AzureStorageKVStoreLibV2.cpp:804-849 | a listed version stays readable, with its pair and its write's data, until 60 commits, its own included, have reached the list |
| EndToEnd.RecentReportReads | KVService/src/AzureStorageKVStoreLibV2.cpp:549-671 | so a whole report reads back when each listed version in it is that recent; default versions are readable forever |
| EndToEnd.CompletedIsOffered | KVService/src/AzureStorageKVStoreLibV2.cpp:697-849 | a completed write is among the versions its blob offers until 60 more commits have reached the blob |
| EndToEnd.WriteThenLookup | KVService/src/AzureStorageKVStoreLibV2.cpp:553-615 | blocks whose writes completed in chain order are found with exactly their hashes by a lookup of those tokens or any extension, each blob being read at its own later moment, whatever other writers do |
| Conversation.ConversationIsFound | KVPlayground/src/main.cpp:418-483 | a conversation written block by block is found again, with the content hash of each block |
| Conversation.LookupAnswersSoundly | KVPlayground/src/main.cpp:1124-1162 | what a lookup reports of blobs whose versions carry content hashes is an answer from which the buffer may resume |
| Conversation.StoreAnswersSoundly | KVPlayground/src/main.cpp:1116-1162 | when every writer hashes content and the tokens fit in 32 bits, each answer of the store is one from which the buffer may resume, and no linked choice of versions is longer; each blob may have been seen in its own reachable state |
| TokenBuffer.HashIsPolynomial | KVPlayground/src/main.cpp:439-443 | the block hash is the sum of th(block[i]) * 31^(n-1-i) modulo 2^64 |
| TokenBuffer.ComputeHash | KVPlayground/src/main.cpp:439-443 | the loop computes that sum modulo 2^64 |
| HashOrder.SwapChangesHash | KVPlayground/src/main.cpp:439-443 | the hash is order-sensitive: swapping two neighbouring tokens anywhere in a block keeps it if and only if their token hashes agree in the low 63 bits |
| TokenBuffer.LookupHashes | KVPlayground/src/main.cpp:1111-1122 | the index-based loop computes the same sum modulo 2^64 for each full slice of 128 tokens |
| TokenBuffer.TokenBufferManager.Add | KVPlayground/src/main.cpp:377-388 | tokens are appended one by one; full blocks move out, the count of processed tokens advances |
| TokenBuffer.TokenBufferManager.FlushCompletedBlocks | KVPlayground/src/main.cpp:401-513 | every block is issued with its hash and its predecessor's as parent; on failure the blocks stay although all counters have advanced |
| TokenBuffer.TokenBufferManager.Resume | KVPlayground/src/main.cpp:1103-1169 | a hit before anything was written replaces counters, tokens, hashes and last hash as the code does |
| TokenBuffer.TokenBufferManager.TakeIn | KVPlayground/src/main.cpp:1171-1198 | only unprocessed tokens are added, and flushed when a block is complete |
| TokenBuffer.RunTurn | KVPlayground/src/main.cpp:1095-1242 | a turn, its early end by a failed flush included, computes the turn function |
| TokenBuffer.RunConversation | KVPlayground/src/main.cpp:1075-1243 | the loop over prompts computes the conversation function |
| TokenBuffer.FlushKeepsWhole | KVPlayground/src/main.cpp:485-512 | a flush keeps the account of all tokens exactly when it succeeds or had nothing to write |
| TokenBuffer.TurnKeeps | KVPlayground/src/main.cpp:1095-1231 | with successful flushes and hits only on an empty buffer, written and waiting tokens are the conversation, fewer than 128 wait, the hashes are those of the slices, and every chunk carries the previous block's hash, across flushes and turns |
| TokenBuffer.HitNeedsEmptyBuffer | KVPlayground/src/main.cpp:1145-1180 | the account is exact after a turn if and only if nothing was hit or the buffer was empty |
| TokenBuffer.AskedOnlyWhileShort | KVPlayground/src/main.cpp:1103-1105 | while the account is exact, the cache is asked exactly as long as the whole conversation is shorter than a block |
| TokenBuffer.ConversationIsCoherent | KVPlayground/src/main.cpp:1079-1243 | the turn invariant holds after every smooth conversation of any length |
| TokenBuffer.CoherentMeans | KVPlayground/src/main.cpp:416-483 | the turn invariant spelled out: whole slices of 128 tokens, their 31-polynomials modulo 2^64, and each write with the hash of the slice before it |
| TokenBuffer.FailedTurn | KVPlayground/src/main.cpp:1184-1242 | a turn whose first flush fails keeps the prompt and its full blocks and gets no answer |
| Playground.GenerateSyntheticResponse | KVPlayground/src/main.cpp:586-626 | the loop computes the agent's answer, markers at both ends |
| Playground.ResponseMarkers | KVPlayground/src/main.cpp:589-626 | an answer has the size asked for, at least eight tokens, and the run's whole identifier at both ends |
| Playground.AnswersDiffer | KVPlayground/src/main.cpp:586-598 | two answers are equal only for the same run and turn |
| Playground.ResponseAt | KVPlayground/src/main.cpp:598-617 | the 42 tokens between the markers of an answer of 50, by position modulo 5 |
| Playground.MarkersAt | KVPlayground/src/main.cpp:592-623 | the four markers before and after them |
| Playground.MarkersMakeUnforeseen | KVPlayground/src/main.cpp:592-623 | blocks without a run's two markers in a row hold none of its answers |
| Playground.HitOnlyAtStart | KVPlayground/src/main.cpp:1103-1169 | unless another run has cached a block that holds one of this run's answers, the cache can be hit in the first turn only |
| Playground.RunIsCoherent | KVPlayground/src/main.cpp:1075-1243 | so every run from the empty buffer whose flushes succeed and whose answers are sound keeps the turn invariant to its end: fewer than 128 tokens wait, slices of 128 are written, their hashes are the 31-polynomials modulo 2^64 |
| Playground.HitOnWaitingTokens | KVPlayground/src/main.cpp:1103-1202 | with such a block cached the account does break: a prompt of at most 77 tokens and its answer of 50 wait, and the next prompt completes the block |
| StreamReactor.StreamingReadReactor.constructor | KVService/src/reactors/StreamingReadReactor.h:35-42 | the fields' initial values |
| StreamReactor.StreamingReadReactor.OnReadDoneFalse | KVService/src/reactors/StreamingReadReactor.cpp:15-26 | the end of reads finishes only when no write and no worker is pending |
| StreamReactor.StreamingReadReactor.ProcessRequest | KVService/src/reactors/StreamingReadReactor.cpp:71-103 | an invalid request or missing store queues a refusal; otherwise the worker is counted before it starts |
| StreamReactor.StreamingReadReactor.WorkerDone | KVService/src/reactors/StreamingReadReactor.cpp:148-166 | a worker queues its response unless shut down, uncounts itself and notifies or finishes |
| StreamReactor.StreamingReadReactor.OnWriteDone | KVService/src/reactors/StreamingReadReactor.cpp:35-55 | a write's end sends the next response or finishes; a failed one finishes with an error |
| StreamReactor.StreamingReadReactor.TrySendNext | KVService/src/reactors/StreamingReadReactor.cpp:169-181 | at most one write is in flight and responses leave in queue order |
| StreamReactor.RunKeeps | KVService/src/reactors/StreamingReadReactor.cpp:15-181 | every run keeps the counters equal to what they count, each received request accounted for exactly once and, while no write has failed, a queue non-empty only with a write in flight |
| StreamReactor.FinishedMeansAnswered | KVService/src/reactors/StreamingReadReactor.cpp:15-55 | when writes succeed the stream is finished at most once, only when drained, and then the written responses answer the received requests one for one |
| StreamReactor.WorkerNeverFinishes | KVService/src/reactors/StreamingReadReactor.cpp:159-165 | the finish in the worker's branch is unreachable: its response is always being written |
| StreamReactor.FinishCount | KVService/src/reactors/StreamingReadReactor.cpp:15-55 | for every stream that has come to rest: each failed write added an error finish, and the regular finish is missing exactly when the last end of reads or of a write was a failed write or a worker's response was dropped; so `Finish` was called once if and only if no write failed, or one did and the regular finish is missing |
| StreamReactor.FinishesSoFar | KVService/src/reactors/StreamingReadReactor.cpp:15-55 | at any time: one error finish per failed write, and at most one regular finish |
| StreamReactor.FinishedTwice | KVService/src/reactors/StreamingReadReactor.cpp:15-44 | a concrete run with two finishes |
| StreamReactor.StreamsEnd | KVService/src/reactors/StreamingReadReactor.cpp:15-181 | every step uses up work, so every run is bounded by the work at its start |
| StreamReactor.BoundedStream | KVService/src/reactors/StreamingReadReactor.cpp:15-181 | a stream of n requests ends within 6 n + 3 steps |
| StreamReactor.NothingIsLeftHanging | KVService/src/reactors/StreamingReadReactor.cpp:57-69 | a stream in which nothing can happen any more was finished and torn down with no worker left, so the wait misses no notification; with successful writes it was finished once and fully answered |
| StreamReactor.WrittenInOrder | KVService/src/reactors/StreamingReadReactor.cpp:148-181 | responses are written in the order in which they were queued, as long as no write fails |
| StreamReactor.OutcomesAreDeserved | KVService/src/reactors/StreamingReadReactor.cpp:71-97 | a written response reports an invalid request exactly when a required field is empty |
| StreamClient.SendAll | KVClient/src/KVStoreGrpcClient.cpp:466-478 | the requests sent are those of the longest accepted prefix of the locations, each with the client's resource and container |
| StreamClient.StreamingReadAsync | KVClient/src/KVStoreGrpcClient.cpp:433-586 | entry i shows what response i says: its hash, parent and buffer when found, otherwise nothing; the rest is padding up to one entry per location; padding alone without a stream |
| StreamClient.NoSurplus | KVService/src/reactors/StreamingReadReactor.cpp:71-181 | the server writes no more responses than it received requests |
| StreamClient.OneResultPerLocation | KVClient/src/KVStoreGrpcClient.cpp:466-582 | client and reactor together give exactly one result per location, however early sending or reading stops |
| StreamClient.ResultsArePermutedReads | KVClient/src/KVStoreGrpcClient.cpp:466-533 | when every step succeeds the results, in some order, show the read of each location: hash, parent and buffer, or nothing |
| RegionMap.FindMapContent | KVService/src/StorageDatabaseResolver.cpp:75-102 | the brace-counting loop finds the content function's text |
| RegionMap.ParseArray | KVService/src/StorageDatabaseResolver.cpp:124-135 | the loop returns the quoted strings of an array, in order |
| RegionMap.ExtractRegionStorageMap | KVService/src/StorageDatabaseResolver.cpp:73-145 | the whole parser computes its function on every text and reports success exactly when a region was read |
| RegionMap.StopsAtMatch | KVService/src/StorageDatabaseResolver.cpp:87-98 | for every text the brace loop stops at the first position where no brace is open, nested ones counted, or at the end of the text when there is none, and returns the braces left open there |
| RegionMap.ReadsPrintedMap | KVService/src/StorageDatabaseResolver.cpp:73-145 | reading a printed document gives its meaning, for all names and gaps free of quotes, brackets and braces and any text around the map |
| RegionMap.MeaningOf | KVService/src/StorageDatabaseResolver.cpp:137-141 | exactly the regions with a non-empty list are in the result, accounts in order, the last non-empty list winning |
| StoreCache.KeysCollide | KVService/src/StorageDatabaseResolver.cpp:339-344 | two pairs share a key if and only if they are equal or one resource name ends at a bar inside the other and the containers match up |
| StoreCache.NoBarNoCollision | KVService/src/StorageDatabaseResolver.cpp:339-344 | resource names without a bar never collide |
| StoreCache.StepKeeps | KVService/src/StorageDatabaseResolver.cpp:391-457 | every step of every call keeps the cache invariant and all recorded stores |
| StoreCache.OneStorePerKey | KVService/src/StorageDatabaseResolver.cpp:414-448 | at most one store is ever created for a key |
| StoreCache.EntriesStay | KVService/src/StorageDatabaseResolver.cpp:404-448 | a cached store is never replaced or dropped |
| StoreCache.SameStore | KVService/src/StorageDatabaseResolver.cpp:391-457 | two answered calls hold the same store if and only if their pairs are equal or collide |
| StoreCache.NoBarNoSharing | KVService/src/StorageDatabaseResolver.cpp:391-457 | without bars two calls share a store only for the same pair |
| StoreCache.StoreIsGenuine | KVService/src/StorageDatabaseResolver.cpp:422-448 | a returned store was made for a call with the same key, from a configuration downloaded for that call's resource; its URL is the scheme, `://`, the first account of the current region and the domain suffix; without bars it was made for the very pair |
| StoreCache.UrlIsGenuine | KVService/src/StorageDatabaseResolver.cpp:369-386 | an account URL that is returned is the scheme, `://`, the first account of the current region in a configuration downloaded for that very resource, and the domain suffix |
| StoreCache.DifferentPairsCanShare | KVService/src/StorageDatabaseResolver.cpp:339-344 | with a bar two different pairs can be answered with one store: a concrete run |
| StoreCache.SomeoneMoves | KVService/src/StorageDatabaseResolver.cpp:404-457 | no state is stuck while a call is unfinished, and a call takes at most six steps |
| StoreCache.ConfigsStay | KVService/src/StorageDatabaseResolver.cpp:203-272 | while only stores are resolved, a cached configuration never changes either, because the stores lock serializes the downloads |
| StoreConfigs.ChangesExactlyWhen | KVService/src/StorageDatabaseResolver.cpp:203-272 | with account calls too: the regions cached for a resource can still change if and only if some call for it had looked into the cache before the entry was there and has yet to download, or to cache other regions |
| StoreConfigs.AccountCallsCanReplace | KVService/src/StorageDatabaseResolver.cpp:346-389 | two account calls for one resource bring such a state about |
| StoreResolver.StorageDatabaseResolver.FetchAccountConfig | KVService/src/StorageDatabaseResolver.cpp:203-272 | the cached configuration, else the downloaded and parsed one; none exactly when nothing is cached and the download is absent or yields no region |
| StoreResolver.StorageDatabaseResolver.Download | KVService/src/StorageDatabaseResolver.cpp:223-272 | a downloaded document that yields regions is parsed and cached; none exactly when it is absent or yields none |
| StoreResolver.StorageDatabaseResolver.CreateAndInsert | KVService/src/StorageDatabaseResolver.cpp:431-456 | a store is created and cached exactly when the region has an account and the store initializes |
| StoreResolver.StorageDatabaseResolver.FastPath | KVService/src/StorageDatabaseResolver.cpp:404-411 | the look under the shared lock answers exactly when the key is cached |
| StoreResolver.StorageDatabaseResolver.SlowPath | KVService/src/StorageDatabaseResolver.cpp:413-456 | the second look, the creation and the insertion, under the exclusive lock |
| StoreResolver.StorageDatabaseResolver.ResolveStore | KVService/src/StorageDatabaseResolver.cpp:391-457 | the whole call, with any steps of other calls between its own, moves the caches exactly as the step system does; a returned store is the one cached for the pair's key; it returns none only for an empty name, without a configuration or an account for the region, or when the store does not initialize, and on its own exactly then |
| StoreResolver.StorageDatabaseResolver.ResolveAccountInfo | KVService/src/StorageDatabaseResolver.cpp:346-389 | the account URL for a pair, as a run of the same step system: the URL of the first account of the current region in a configuration downloaded for the resource; none only for an empty name, without a configuration or without an account |
| NicRoundRobin.StepKeeps | KVService/src/AzureStorageKVStoreLibV2.cpp:152-162 | loads, swaps and spurious failures keep every past value of the index equal to its position modulo the number of interfaces |
| NicRoundRobin.IndexCountsTurns | KVService/src/AzureStorageKVStoreLibV2.cpp:152-162 | the index stays below n and is the number of successful swaps modulo n |
| NicRoundRobin.OneTurnEach | KVService/src/AzureStorageKVStoreLibV2.cpp:156-162 | every call that leaves the loop made exactly one change, and every change belongs to one call |
| NicRoundRobin.StartsAtItsTurn | KVService/src/AzureStorageKVStoreLibV2.cpp:152-166 | a call starts at the interface of its turn if and only if the turns since the value it read are a multiple of n |
| NicRoundRobin.NeighboursCanMeet | KVService/src/AzureStorageKVStoreLibV2.cpp:152-166 | two neighbouring turns can start at the same interface: a concrete run for every n above 1 |
| NicRoundRobin.AttemptsAreDistinct | KVService/src/AzureStorageKVStoreLibV2.cpp:164-166 | the n attempts visit n distinct interfaces |
| NicRoundRobin.AttemptsGoUp | KVService/src/AzureStorageKVStoreLibV2.cpp:164-166 | the attempts start at the interface read and go up by one, wrapping at the end of the list |
| NicRoundRobin.EveryInterfaceIsVisited | KVService/src/AzureStorageKVStoreLibV2.cpp:164-166 | every interface has an attempt |
| NicRoundRobin.BindAny | KVService/src/AzureStorageKVStoreLibV2.cpp:164-213 | the first usable interface in attempt order, and the fallback exactly when none is usable |
| NicRoundRobin.MultiNic.CompareExchangeWeak | KVService/src/AzureStorageKVStoreLibV2.cpp:158-160 | succeeds exactly when the index has the expected value and no spurious failure occurs; a failure changes nothing |
| NicRoundRobin.MultiNic.TakeTurn | KVService/src/AzureStorageKVStoreLibV2.cpp:150-162 | the load and swap loop takes one turn and returns the interface read first, which for a call alone is the current index |
| NicRoundRobin.MultiNic.MultiNicSocketCallback | KVService/src/AzureStorageKVStoreLibV2.cpp:138-213 | the default socket, with nothing changed, for other purposes or without interfaces; otherwise the index moves along a run that gives the call its turn, and the socket is bound to the first usable interface counting from the index read, the default one exactly when none is usable |

## Left out

- WriteAsync.Container.WriteAsync: a generated name that repeats an earlier one ends the modelled call; the protocol assumes such names are fresh, as the code does without checking.
- WriteTheorems.NoLostUpdates: an update that the service applied but whose answer was lost, or that the SDK repeats, is not modelled; a storage error means that the operation had no effect.
- EndToEnd.WriteThenLookup: assumes that only writes of this protocol touch the container, and that the hash of a block is a function of its name.
- Conversation.ConversationIsFound: assumes tokens in the range of 32 bits, beyond which names collide as `BlobNames.SameName` says.
- StreamClient.ResultsArePermutedReads: results carry found, hash, parent and buffer; the tokens, identifiers and timings that the code copies beside them are left out.
- TokenBuffer.TokenBufferManager.Resume: the 32-bit width of the matched length is not modelled; it would matter above sixteen million blocks.
- Playground.AnswersDiffer: how the run identifier is packed from time, process and run number is left out; two runs that get the same identifier give the same answers.
- StreamReactor.NothingIsLeftHanging: a spurious wakeup of the condition variable only evaluates its condition again and is no step; calling the RPC runtime's `Finish` after the unlock counts as part of the locked step.
- StoreCache.EntriesStay: `SetConfig`, logging callbacks and the last-error text are left out; an initialization failure of the configuration store is a failed download.
- NicRoundRobin.IndexCountsTurns: the list of interfaces is fixed; the code fills it before the callbacks run.
- Hash and parent metadata are numbers, not text, except inside the version list; exceptions of the number parser on foreign metadata are therefore not modelled.
- The number of commits stands for the ETag: a committed update renews it, nothing else does.
- The base64url routines belong to the Azure SDK and are modelled after section 5 of RFC 4648; `std::hash` is a parameter.
- Object lifetime: `delete this`, detached threads and a mutex destroyed under its owner.
- `partitionKey` and the precomputed hashes, which the lookup accepts and does not use; the validation reads of the playground before each turn, which change nothing.
- The Azure SDK, HTTP, TLS, credentials, sockets and network discovery; gRPC configuration and the unary reactors; logging, metrics and statistics; argument and environment parsing; `FileConfigProvider` and `ServiceConfig`; `InMemoryAccountResolver`, which repeats the double-checked cache; `processWithCache`, tokenizers, scripts and deployment.
