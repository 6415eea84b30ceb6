# NetCourier, verified

NetCourier is a distributed chat and file-transfer system: browsers talk to a bridge, the bridge to a
gateway and to process servers. This project models the parts of it that keep state and can disagree
with themselves, and proves what they promise over whole runs.

Each stateful object of the program is a class whose methods update its fields. A method's
postcondition says that the fields after the call are those of a step function applied to the fields
before it (`Snapshot() == ...`); the promises are then proved about the step functions, over every
sequence of steps. For each stateful object there is also a history: a fold over the events that concern one
user, one connection, one server, one item or one upload, written without the dictionaries the program
keeps, and a theorem that after every run the program's state and its replies are what that fold says.

| file | what it is about |
|---|---|
| `Bytes.dfy`, `Reassembly.dfy` | files as byte strings, seek-and-write, what a set of written chunks leaves on disk |
| `Transfers.dfy`, `TransferInvariants.dfy` | the upload, resume and download handlers as steps on tables, disk and progress cache, and what every step keeps |
| `StoredFiles.dfy`, `PublishedFiles.dfy` | available files stay verified; published bytes never change |
| `UploadRuns.dfy`, `UploadTheorems.dfy`, `InOrderClient.dfy` | one upload followed through runs in which everything else goes on |
| `UploadHistory.dfy` | what becomes of one upload: chunks taken, row, staleness, restarts |
| `ProcessServer.dfy` | the handlers as methods of one object |
| `FlushRace.dfy` | the progress flush split where it gives up its lock, with any number of threads |
| `Protocol.dfy` | length-prefixed packets over a stream that arrives in arbitrary pieces |
| `PooledUpload.dfy` | the browser's worker pool and the server side by side, over late requests, lost answers and a resume |
| `Download.dfy`, `HttpChunked.dfy` | pushing chunks, and the HTTP chunked body |
| `DownloadResume.dfy`, `EndToEnd.dfy` | downloads broken off and resumed; from the uploading browser to the downloading one |
| `Rooms.dfy`, `RoomHistory.dfy` | the `clients` and `rooms` dictionaries of a process server, and where each connection is |
| `Gateway.dfy`, `PresenceHistory.dfy`, `GatewayServer.dfy` | sessions, tokens and presence |
| `Placement.dfy`, `PlacementServices.dfy` | backend registry, load balancer, room directory |
| `UploadQueue.dfy`, `UploadStatus.dfy`, `UploadScheduler.dfy`, `WorkerPool.dfy` | the browser's upload scheduler and its workers |
| `ChunkMath.dfy`, `RateLimiter.dfy` | chunk formulas; the rate limiter |

## Assumptions

- SHA-256 is an arbitrary function of the file. Lemmas that need it to be free of collisions say so.
- JSON is a pair of functions; `Faithful` says that decoding undoes encoding. The payload size in a
  header is an integer.
- File paths and session tokens are drawn at random: a step that draws one requires it to be unused.
- Handlers are atomic steps, except in `FlushRace.dfy`, where the lock boundaries are the steps.
- What the gateway says about a token, and how many bytes a connection takes before it breaks, are parameters.
- A clock is a value each event carries. Only the lemmas that need it to be nondecreasing require that.
- The tables are maps; a row that the schema makes unique is a key.
- The tracked uploads announce the chunk size and the ceiling chunk count that the bridge computes.

## What turned out not to hold

- A chunk that names a *download* is accepted and can rewrite an available file
  (`StoredFiles.ChunkKeepsVerifiedIff` has the exact condition, `StoredFiles.DownloadChunkRewrites` a run).
- A finish request that names a download of a deleted file makes the file available again
  (`PublishedFiles.DeletedComesBack`; `PublishedFiles.DownloadableIff` is exact).
- `AUTH_BACKEND` sent while in a room leaves a member behind that no disconnect removes
  (`Rooms.AuthenticateKeepsIff`, `Rooms.StaleMember`).
- A clean cache entry need not agree with its row. In every interleaving the row lacks exactly the chunks
  counted since the copy was made whose write came last (`FlushRace.StoredIsCachedIff`). Such a copy may be
  that of a thread that was overtaken (`FlushRace.StaleWriter`); a thread that flushes alone leaves the two
  equal exactly when no chunk was counted meanwhile (`FlushRace.CleanMeansStoredIff`). Once no thread is
  inside a flush, what the row lacks stays unwritten until another chunk is counted
  (`FlushRace.QuietRowStays`).
- The timeout sweep looks at the row, whose time lags behind the cache: an upload that is sending is failed
  when its last write-back is too old, goes on while it is cached, and cannot be resumed
  (`UploadHistory.UploadIsItsStory`, `UploadHistory.ActiveUploadExpires`, `UploadHistory.ResumeTellsStory`).
- A restart keeps the counter of an upload exactly when the row had caught up, as it has after a proper stop
  (`UploadHistory.RestartKeepsCountIff`, `UploadHistory.StopAndRestart`).
- The resume counter of a parallel upload may point behind a gap. The resumed upload completes the file, and
  its finish request succeeds, exactly when every chunk below the counter had been written or is all zeros,
  and the last one too if the counter has reached the total (`UploadTheorems.ResumeCompletesIff`,
  `PooledUpload.ResumedPoolFinishesIff`, `UploadTheorems.GapSurvivesResume`). For a source without an
  all-zero chunk that is when the written chunks had no gap below the counter.
- The counter is the number of written chunks exactly when no chunk was acknowledged twice
  (`UploadTheorems.CounterIsWrittenSet`).
- Resuming an item before its aborted call has settled gives it two calls, or marks it failed
  (`UploadQueue.ResumeKeepsSingleIff`, `UploadQueue.OneCallPerItem`, `UploadQueue.QuickResumeFails`).
- `send_packet` checks neither limit that `receive_packet` enforces (`Protocol.FrameRoundTrip` is an
  equivalence for that reason).
- A download body is closed properly also when the wait runs out, so a truncated file looks complete
  (`HttpChunked.StreamedDownload`). A connection that breaks, by contrast, never does
  (`HttpChunked.BrokenDownload`).
- The documentation speaks of files marked corrupted, rows per chunk and round-robin ties; the code has
  none of them, and the model follows the code.

## Model

| member | source | states |
|---|---|---|
| Bytes.WriteAt | src/netcourier/server/main.py:939-941 | seek and write: every byte of the result, with zero-filled gaps and unchanged bytes outside the chunk |
| Reassembly.WriteExtendsImage | src/netcourier/server/main.py:934-941 | writing one more chunk at its offset turns the image of a set of chunks into the image of the larger set |
| Reassembly.ImageIsSource | src/netcourier/server/main.py:991-999 | the disk holds the source if and only if the last chunk was written and every unwritten chunk is all zeros |
| Reassembly.OutOfOrderReassembly | src/netcourier/server/main.py:934-941 | any order of chunk packets, with repeats, that covers every index leaves exactly the source; with the exact condition when it does not cover |
| Reassembly.FullSet | src/netcourier/server/main.py:945 | pigeonhole: indices below the chunk count are all of them exactly when there are as many |
| Reassembly.DistinctSize | src/netcourier/server/main.py:945 | a counter equals the number of different indices exactly when none repeats |
| Reassembly.ResumeFillsIffInitial | src/netcourier/server/main.py:1121-1126 | sending the indices from the counter on completes the set exactly when the written set is an initial segment |
| TransferInvariants.StepKeepsInv | src/netcourier/server/main.py:895-1139 | every handler keeps links between rows, cache and disk, one upload per file, and a row that is never ahead of its cache entry, equal when clean and less than 20 chunks behind otherwise |
| TransferInvariants.ChunkKeeps | src/netcourier/server/main.py:895-963 | the same for a chunk: lookup, load, write, count and flush on the first, last and every twentieth chunk |
| TransferInvariants.CountKeepsLag | src/netcourier/server/main.py:945-954 | counting one more chunk keeps the lag bound unless it is a twentieth, and flushing then restores equality |
| TransferInvariants.FlushKeeps | src/netcourier/server/main.py:130-169 | a flush keeps the invariant and leaves the entry clean |
| TransferInvariants.CleanupKeeps | src/netcourier/server/main.py:171-181 | flushing and closing everything when a client goes away keeps the invariant |
| TransferInvariants.FinishKeeps | src/netcourier/server/main.py:965-1007 | a finish request keeps the invariant, published or not |
| TransferInvariants.ExpireKeeps | src/netcourier/server/main.py:110-128 | failing stale rows behind the back of the cache keeps the invariant |
| TransferInvariants.InitKeeps | src/netcourier/server/main.py:826-893 | announcing a file creates an empty file and two linked rows that nothing else refers to |
| TransferInvariants.FetchKeeps | src/netcourier/server/main.py:1057-1092 | a download gets a row of its own, and only for a file whose upload is over |
| StoredFiles.RunKeepsInv | src/netcourier/server/main.py:826-1143 | the invariant holds after every run of handlers with fresh paths |
| StoredFiles.StoredFilesStayVerified | src/netcourier/server/main.py:999-1007 | after every run whose chunks name uploads, every available file hashes to its recorded checksum |
| StoredFiles.ChunkKeepsVerifiedIff | src/netcourier/server/main.py:901-941 | with a collision-free hash, a chunk keeps that promise if and only if it does not change the bytes of an available file |
| StoredFiles.RewriteNamesDownload | src/netcourier/server/main.py:904-911 | a chunk that does change them names a download |
| StoredFiles.DownloadChunkRewrites | src/netcourier/server/main.py:904-911 | a concrete run, from an empty server, in which such a chunk breaks the promise |
| StoredFiles.ChunkEffect | src/netcourier/server/main.py:901-941 | an accepted chunk changes the bytes of one file, at the offset of its index, and no file row |
| PublishedFiles.PublishedBytesNeverChange | src/netcourier/server/main.py:866-872 | over every run whose chunks name uploads, the bytes of a published file stay what they were, even with hash collisions |
| PublishedFiles.CompletedRefusesChunks | src/netcourier/server/main.py:912-914 | after any run, a chunk for a completed transfer is refused and changes nothing |
| PublishedFiles.AvailableIsClosed | src/netcourier/server/main.py:999-1007 | a file that can be downloaded has no unfinished upload |
| PublishedFiles.AnnouncedRowStays | src/netcourier/server/main.py:826-884 | exactly which offers are refused and how; an accepted one leaves a row with what it announced and the room it named by number or name, which no later run changes but for the status |
| PublishedFiles.DownloadableIff | src/netcourier/server/main.py:1057-1069 | after every run, a download request is served iff the file was published and not deleted since, and is answered that there is no such file otherwise |
| PublishedFiles.DeletedComesBack | src/netcourier/server/main.py:965-1001 | a finish request that names a download of a deleted file publishes it again |
| PublishedFiles.NegativeOffset | src/netcourier/server/main.py:934-941 | a chunk at a negative offset is an error that writes and counts nothing, but leaves the file open |
| PublishedFiles.FinishOfUnknown | src/netcourier/server/main.py:981-990 | a finish request for no transfer changes nothing and gets no answer |
| PublishedFiles.FinishOfLostFile | src/netcourier/server/main.py:990-1055 | a finish request whose file is gone from the disk is an error and publishes nothing |
| UploadRuns.FollowTracks | src/netcourier/server/main.py:895-1143 | whatever else the server does in between, refused finish requests included, disk, chunk counter and byte counter of an upload are those of its acknowledged chunks, and what it announced stays |
| UploadRuns.ElsewhereUndisturbed | src/netcourier/server/main.py:826-1143 | no request about other transfers touches the file or the counters of a running upload |
| UploadRuns.ChunkCounts | src/netcourier/server/main.py:943-951 | an accepted chunk is acknowledged and counted once, with its length, whether the entry was cached or loaded |
| UploadTheorems.InitStartsTracking | src/netcourier/server/main.py:842-888 | an announced upload starts with an empty file, zero counters and start chunk 0 |
| UploadTheorems.CoveredUploadSucceeds | src/netcourier/server/main.py:965-1011 | once every index was acknowledged, in any order and with repeats, the finish request succeeds, publishes exactly the source and evicts the entry |
| UploadTheorems.FinishSucceedsIff | src/netcourier/server/main.py:991-1051 | with a collision-free hash the reply is success exactly when nothing that matters is missing, and a checksum error otherwise |
| UploadTheorems.RefusedFinishTracks | src/netcourier/server/main.py:1048-1051 | a refused finish request leaves the upload as it was, to be resumed and finished later |
| UploadTheorems.CounterIsWrittenSet | src/netcourier/server/main.py:945 | the counter is the size of the written set iff no chunk was acknowledged twice, and then equals the total iff all chunks are there |
| UploadTheorems.ResumeTellsCount | src/netcourier/server/main.py:1094-1126 | a resume answers with the cached count although it reads the row, or refuses a transfer that is not in progress |
| UploadHistory.UploadIsItsStory | src/netcourier/server/main.py:895-963 | over every run of anything else, which chunks of an upload are taken, what its row counts, when it was last heard of, whether it is cached and whether a sweep has failed it are what its own events say |
| UploadHistory.InitHolds | src/netcourier/server/main.py:874-888 | how that story begins |
| UploadHistory.ResumeTellsStory | src/netcourier/server/main.py:1114-1126 | a resume names the number of chunks taken, or is refused exactly when a sweep failed the upload |
| UploadHistory.ActiveUploadExpires | src/netcourier/server/main.py:110-128 | a concrete story of an upload that is failed although its last chunk came after the threshold |
| UploadHistory.StopAndRestart | src/netcourier/server/main.py:98-101 | a server stopped properly and restarted with an empty cache knows the upload as it was |
| UploadHistory.RestartKeepsCountIff | src/netcourier/server/main.py:171-181 | without the flush the counter survives iff the row had caught up |
| UploadTheorems.ResumeCompletesIff | src/netcourier/server/main.py:1121-1126 | parallel upload, then everything from the counter on, in any order and with repeats: the file is complete iff the chunks below the counter were written or are all zeros; without all-zero chunks, iff they had no gap |
| PooledUpload.ResumedPoolFinishesIff | src/netcourier/web/static/app.js:140-262 | stopped, resumed at the counter the server names, continued by a pool of workers through late requests, lost answers and foreign requests: the finish request succeeds iff the resume skipped nothing, and is a checksum error otherwise (collision-free hash; no request of the stopped call for a lower chunk is still on its way) |
| PooledUpload.PoolFinishesIff | src/netcourier/web/static/app.js:189-262 | for a pool that starts anywhere, also when requests of an earlier call still arrive: success iff every chunk below its start was written by the end or is all zeros |
| PooledUpload.FirstPoolSucceeds | src/netcourier/web/static/app.js:189-262 | a pool that starts at chunk 0 and gets all its answers always ends with the source published |
| PooledUpload.PlayKeepsCoupled | src/netcourier/web/static/app.js:236-241 | over every joint run, an index the browser saw succeed is one the server wrote and counted |
| UploadTheorems.GapSurvivesResume | src/netcourier/web/static/app.js:189-260 | a concrete run in which the counter reaches the total while a chunk is missing |
| InOrderClient.InOrderResumeIsExact | src/netcourier/server/main.py:1094-1126 | for a client that sends in order and trusts the counter, through any lost connections and resumes, the disk is the prefix of the counted chunks and resume names the first missing one |
| InOrderClient.LiveKeepsInStep | src/netcourier/web/api/routes.py:377-414 | the written indices are exactly those below the counter, and a connected client sends the next |
| ProcessServer.TransferEngine.HandleUploadInit | src/netcourier/server/main.py:826-893 | performs the upload-init step, with the room looked up by name when only that is given, and both refusals |
| ProcessServer.TransferEngine.HandleUploadChunk | src/netcourier/server/main.py:895-963 | performs the upload-chunk step, with refusal and negative offset |
| ProcessServer.TransferEngine.OpenTransfer | src/netcourier/server/main.py:901-938 | loads the row into the cache and opens the file for update without truncating it |
| ProcessServer.TransferEngine.HandleUploadFinish | src/netcourier/server/main.py:965-1055 | performs the finish step |
| ProcessServer.TransferEngine.HashFile | src/netcourier/server/main.py:991-997 | hashing block by block is hashing the file |
| ProcessServer.TransferEngine.HandleDownloadRequest | src/netcourier/server/main.py:1057-1092 | performs the download-request step |
| ProcessServer.TransferEngine.HandleResumeTransfer | src/netcourier/server/main.py:1094-1143 | performs the resume step, flush first, with a client that is gone, a foreign or finished transfer, and a direction that is neither |
| ProcessServer.TransferEngine.FlushTransferProgress | src/netcourier/server/main.py:130-169 | writes one dirty entry back |
| ProcessServer.TransferEngine.FlushAllDirtyTransfers | src/netcourier/server/main.py:171-181 | flushes and closes every entry, in any order |
| ProcessServer.TransferEngine.CheckTransferTimeouts | src/netcourier/server/main.py:110-128 | fails exactly the stale in-progress rows |
| FlushRace.StoredNeverAhead | src/netcourier/server/main.py:130-169 | in every interleaving of flushers and chunk handlers the stored counters never exceed the cached ones while the entry lives |
| FlushRace.NeverAheadFromStart | src/netcourier/server/main.py:943-951 | the same over every history of a newly announced transfer |
| FlushRace.StoredIsCachedIff | src/netcourier/server/main.py:130-169 | in every interleaving, while the entry lives, the row equals it iff no chunk was counted since the copy was made whose write came last, and lacks exactly those chunks otherwise |
| FlushRace.HistoryExplains | src/netcourier/server/main.py:130-169 | the same for every copy that a thread still holds |
| FlushRace.QuietRowStays | src/netcourier/server/main.py:130-138 | when the entry is clean or gone and no thread is inside a flush, nothing but another chunk makes the row change |
| FlushRace.StaleWriter | src/netcourier/server/main.py:146-167 | a concrete run in which a slow thread's old copy overwrites a newer one and the entry ends clean, although no chunk was counted during the newer flush |
| FlushRace.CleanMeansStoredIff | src/netcourier/server/main.py:163-167 | a thread that flushes alone leaves a clean entry equal to its row iff no chunk was counted between its copy and its clear, and no new copy is made of what the row lacks |
| FlushRace.FlushRefines | src/netcourier/server/main.py:130-169 | a flush that nothing interrupts is the atomic flush of the other files |
| FlushRace.FailedFlush | src/netcourier/server/main.py:168-169 | a flush whose update fails leaves row and entry as they were |
| FlushRace.HandlersRefine | src/netcourier/server/main.py:901-954 | loading, counting, publishing and expiring are the actions of the fine-grained model |
| Protocol.FrameRoundTrip | src/netcourier/common/protocol.py:74-130 | a packet arrives intact and the read stops on its last byte if and only if it is within the receiver's limits |
| Protocol.OverLimitFrame | src/netcourier/common/protocol.py:98-127 | which error a packet outside the limits gives |
| Protocol.ForeignFrame | src/netcourier/common/protocol.py:104-130 | header text that is no JSON object is a violation; an object that announces no payload or a negative one is a packet without |
| Protocol.CutFrame | src/netcourier/common/protocol.py:139-147 | a stream cut inside a packet is a closed connection, never a truncated packet |
| Protocol.StreamRoundTrip | src/netcourier/common/protocol.py:88-136 | repeated receives return exactly the list of packets sent, then the closed connection |
| Protocol.CutStream | src/netcourier/common/protocol.py:88-136 | a stream cut anywhere yields the packets complete by then, and then a closed connection |
| Protocol.Socket.RecvAll | src/netcourier/common/protocol.py:139-147 | however the bytes arrive, exactly the next n of them, or nothing at the end of the stream |
| Protocol.Socket.ReceivePacket | src/netcourier/common/protocol.py:88-136 | one packet or one error, as a function of the stream alone |
| Protocol.Socket.DrainPackets | src/netcourier/server/main.py:254-263 | a connection's packets up to its first failure |
| Protocol.Socket.SendPacket | src/netcourier/common/protocol.py:74-85 | stamps the payload size into the caller's header and writes the frame, unless the header is too long to prefix |
| Download.PushDownloadChunks | src/netcourier/server/main.py:1145-1170 | one seek and sequential reads send the numbered slices from the start chunk on, up to where the connection breaks; also for a chunk size that is not positive |
| Download.PushDeliversRest | src/netcourier/server/main.py:1152-1165 | the pieces from any chunk on are nonempty, consecutive and join to the rest of the file |
| Download.OddSizes | src/netcourier/server/main.py:1145-1165 | what a push brings when the announced chunk size is zero or negative |
| Download.BrokenThenResumed | src/netcourier/server/main.py:1128-1139 | a received prefix followed by a resumed push is the file |
| HttpChunked.ChunkDecodes | src/netcourier/web/api/routes.py:462-463 | one encoded chunk reads back; an empty one is the terminator |
| HttpChunked.HexIsUpper | src/netcourier/web/api/routes.py:462-463 | chunk sizes are written in upper case without leading zeros |
| HttpChunked.DecodeStopsAtEmpty | src/netcourier/web/api/routes.py:454-478 | the decoded body is what precedes the first empty chunk |
| HttpChunked.ChunkedRoundTrip | src/netcourier/web/api/routes.py:454-478 | the body reads back in full under section 7.1 of RFC 9112 iff no chunk is empty |
| HttpChunked.StreamedDownload | src/netcourier/web/api/routes.py:454-479 | the first chunks of a push decode to that much of the file, which is all of it iff all arrived |
| HttpChunked.CutBody | src/netcourier/web/api/routes.py:462-478 | a body of nonempty chunks cut anywhere before its end does not decode |
| HttpChunked.BrokenDownload | src/netcourier/web/api/routes.py:454-479 | on a connection that breaks anywhere the browser gets an error, never a shorter file |
| HttpChunked.StreamDownloader.HandleChunk | src/netcourier/web/api/routes.py:458-470 | what one chunk adds to the wire, the count and the flags, also when only part of it gets out |
| HttpChunked.StreamDownloader.Close | src/netcourier/web/api/routes.py:473-480 | the terminator, or what gets out of it, unless a write failed before |
| HttpChunked.ServeDownload | src/netcourier/web/api/routes.py:454-480 | the bytes behind the headers are the body, cut where the connection breaks, and when the wait ends by itself |
| EndToEnd.UploadThenDownload | src/netcourier/server/main.py:1057-1170 | after a covered upload and any later run of other uploads, a browser that may still download the file decodes exactly the uploaded bytes |
| EndToEnd.UploadThenResumedDownload | src/netcourier/server/main.py:1128-1139 | after a covered upload, a download broken off after any number of chunks and resumed there by its reader, whatever went on in between, joins to the uploaded file; anybody else is refused |
| DownloadResume.DownloadCanBeResumed | src/netcourier/server/main.py:1094-1143 | over every later run, a resume request for a download is answered from the chunk it names if it comes from the reader and nobody finished the download and no sweep found it too old; in every other case the exact refusal |
| EndToEnd.InOrderClientCovers | src/netcourier/server/main.py:1121-1126 | a client that sends in order has covered its file once the counter says so |
| EndToEnd.PoolCovers | src/netcourier/web/static/app.js:253-262 | a pool whose workers are all done has every chunk acknowledged by the server, if everything below its start was |
| Rooms.AgreementMeans | src/netcourier/server/main.py:374-385 | agreement of the indexes: in a room set exactly when it is the current room, no empty room, rooms disjoint |
| Rooms.AgreementIff | src/netcourier/server/main.py:374-385 | the converse: these facts determine the room index |
| Rooms.JoinMoves | src/netcourier/server/main.py:374-385 | joining or switching moves one connection and no other |
| Rooms.LeaveMoves | src/netcourier/server/main.py:420-427 | leaving removes one connection, and the room with its last member |
| Rooms.CleanupMoves | src/netcourier/server/main.py:1172-1185 | a disconnect removes the connection everywhere, and repeating it changes nothing |
| Rooms.AuthenticateKeepsIff | src/netcourier/server/main.py:347-352 | authenticating keeps the indexes in agreement iff the connection is in no room |
| Rooms.StaleMember | src/netcourier/server/main.py:347-352 | a concrete run that leaves a member no disconnect removes |
| Rooms.RunKeepsAgreement | src/netcourier/server/main.py:325-427 | agreement after every run of authentications outside rooms, joins, leaves, kicks and disconnects |
| Rooms.BroadcastsStayInRoom | src/netcourier/server/main.py:461-469 | over such runs a broadcast reaches exactly the connections whose current room it is |
| RoomHistory.ClientsAreTheirHistory | src/netcourier/server/main.py:325-427 | over every allowed run, each connection is known and in a room exactly as the last event about it says: authentication, join, leave, kick or disconnect |
| RoomHistory.BroadcastIsHistory | src/netcourier/server/main.py:461-469 | whom a broadcast reaches, read off the history |
| RoomHistory.AnswersAreHistory | src/netcourier/server/main.py:325-418 | what each request is answered, read off the history |
| RoomHistory.KickFindsTarget | src/netcourier/server/main.py:604-620 | an owner's kick hits a connection of that name in the room, and nobody exactly when there is none |
| Rooms.RoomTable.HandleAuthBackend | src/netcourier/server/main.py:325-362 | performs the authentication step, also when the gateway refuses the token or does not answer |
| Rooms.RoomTable.HandleJoinRoom | src/netcourier/server/main.py:364-385 | performs the join step |
| Rooms.RoomTable.HandleLeaveRoom | src/netcourier/server/main.py:401-418 | performs the leave step |
| Rooms.RoomTable.LeaveRoomLogic | src/netcourier/server/main.py:420-427 | removes the connection, and an emptied room |
| Rooms.RoomTable.CleanupClient | src/netcourier/server/main.py:1172-1185 | performs the disconnect step |
| Rooms.RoomTable.HandleKickUser | src/netcourier/server/main.py:604-636 | cleans up some matching member of the owner's own room, or reports none |
| Rooms.RoomTable.BroadcastToRoom | src/netcourier/server/main.py:461-469 | sends once to each member of the room set |
| Gateway.SessionsAreLifetimes | src/netcourier/gateway/main.py:241-300 | over every run the two dictionaries mirror each other and hold exactly the tokens alive by their own history |
| Gateway.StepKeepsMirror | src/netcourier/gateway/main.py:241-300 | every handler keeps one token per username and one username per token |
| Gateway.GrantedIff | src/netcourier/gateway/main.py:164-198 | a request or a token validation is granted iff the token is alive and not past its expiry, and names the user it was issued to |
| Gateway.AnswersAreHistory | src/netcourier/gateway/main.py:241-300 | every reply, refusals and their kinds included, by the token's own history |
| Gateway.AliveMeansValid | src/netcourier/gateway/main.py:102-117 | an alive token was issued by a login that no logout, later login, disconnect, expiry or idle sweep has undone |
| Gateway.ValidMeansAlive | src/netcourier/gateway/main.py:102-117 | the converse, when the clock never goes back |
| Gateway.OneTokenPerUser | src/netcourier/gateway/main.py:247-252 | two live tokens never belong to one username |
| Gateway.PresenceAgrees | src/netcourier/gateway/main.py:435-449 | over every run with consistent accounts, each live session has the status and room of its presence row |
| PresenceHistory.PresenceIsItsHistory | src/netcourier/gateway/main.py:435-449 | over every run with consistent accounts, presence row and session of each user are what that user's events say: login, last room update, refreshes, and offline after any end of the session |
| PresenceHistory.SessionTellsStory | src/netcourier/gateway/main.py:173-180 | a live session carries the status and room of that same story |
| PresenceHistory.NoOtherRows | src/netcourier/gateway/main.py:290-300 | a presence row is always that of the user it names |
| GatewayServer.Server.HandleLogin | src/netcourier/gateway/main.py:241-281 | performs the login step |
| GatewayServer.Server.RefreshToken | src/netcourier/gateway/main.py:163-180 | performs the expiry check and the `last_seen` refresh |
| GatewayServer.Server.HandleRequest | src/netcourier/gateway/main.py:163-201 | performs the authenticated-request step |
| GatewayServer.Server.HandleLogout | src/netcourier/gateway/main.py:283-288 | performs the logout step |
| GatewayServer.Server.CleanupSession | src/netcourier/gateway/main.py:290-300 | removes a session, its index entry and its presence |
| GatewayServer.Server.ValidateToken | src/netcourier/gateway/main.py:417-433 | performs the token validation step |
| GatewayServer.Server.UserRoomStatusUpdate | src/netcourier/gateway/main.py:435-451 | performs the room status step |
| GatewayServer.Server.FindStale | src/netcourier/gateway/main.py:102-113 | lists exactly the expired and the idle tokens |
| GatewayServer.Server.PruneStaleSessions | src/netcourier/gateway/main.py:102-117 | performs the sweep |
| Placement.BestIsUnique | src/netcourier/gateway/load_balancer.py:18-35 | at most one server has the least (score, identifier) pair |
| Placement.OneCreatePerName | src/netcourier/gateway/room_directory.py:30-71 | under one name one create succeeds, and every later one is told the room exists |
| Placement.CreatedOnBest | src/netcourier/gateway/load_balancer.py:18-35 | a create that succeeds is given the least (score, identifier) pair among the servers alive at that moment |
| Placement.CreateAnswerIff | src/netcourier/gateway/room_directory.py:30-71 | by the history alone: a create is refused iff the name is taken or no server with a name serves, and otherwise assigns the server with the least reported load, its last registered address and the next room number |
| Placement.RoomsAreNumbered | src/netcourier/gateway/room_directory.py:44-65 | the next room number is one more than the creates that succeeded |
| Placement.RoomAffinity | src/netcourier/gateway/room_directory.py:73-102 | every later join names the server of that create at the address it registered last, or is refused exactly while the server counts as down |
| Placement.UnknownRoom | src/netcourier/gateway/room_directory.py:73-102 | a join finds nothing exactly when no create of that name succeeded |
| Placement.RegistryReflectsEvents | src/netcourier/gateway/backend_service.py:20-118 | registry and table say about each server what its own registrations, heartbeats, sweeps and restarts say |
| PlacementServices.BackendService.RegisterBackend | src/netcourier/gateway/backend_service.py:20-50 | performs the registration step |
| PlacementServices.BackendService.UpdateHeartbeat | src/netcourier/gateway/backend_service.py:52-87 | performs the heartbeat step; counters that the report leaves out stay |
| PlacementServices.BackendService.GetAliveBackends | src/netcourier/gateway/backend_service.py:89-91 | the alive part of the registry |
| PlacementServices.BackendService.CheckTimeouts | src/netcourier/gateway/backend_service.py:98-118 | performs the sweep |
| PlacementServices.LoadBalancer.SelectBackend | src/netcourier/gateway/load_balancer.py:8-35 | in whatever order the servers are listed, the least (score, identifier) pair, or none |
| PlacementServices.RoomDirectoryService.CreateRoom | src/netcourier/gateway/room_directory.py:30-71 | performs the create step with the balancer's choice |
| PlacementServices.RoomDirectoryService.JoinRoom | src/netcourier/gateway/room_directory.py:73-102 | performs the join lookup |
| UploadQueue.SchedulerInvariant | src/netcourier/web/static/app.js:45-135 | after every event the count is the number of running calls and within the bound, queued items are in the queue, and none waits while a slot is free |
| UploadQueue.ProcessRestoresBusy | src/netcourier/web/static/app.js:54-64 | starting one item is enough |
| UploadQueue.QueueDrains | src/netcourier/web/static/app.js:78-89 | left alone, calls settle a bounded number of times, and at rest nothing is queued or uploading |
| UploadQueue.ResumeKeepsSingleIff | src/netcourier/web/static/app.js:107-114 | resuming keeps one call per item iff the earlier call has settled |
| UploadQueue.OneCallPerItem | src/netcourier/web/static/app.js:54-114 | over every run that resumes items only after their call settled, no item has two calls |
| UploadQueue.QuickResumeFails | src/netcourier/web/static/app.js:69-77 | a concrete run in which a resumed item is marked failed by its own aborted call |
| UploadStatus.StatusIsItsStory | src/netcourier/web/static/app.js:66-135 | over every run each item has the status its own events give it: completed by a call that returns, failed by one that throws unless paused or cancelled since |
| UploadStatus.WantedItemRunsIff | src/netcourier/web/static/app.js:54-64 | with patient resumes, a wanted item is uploading iff it has a call, and queued otherwise |
| UploadStatus.PausedGoesFirst | src/netcourier/web/static/app.js:72-73 | an item whose call throws while it is paused is at the front of the queue |
| UploadStatus.ResumedGoesLast | src/netcourier/web/static/app.js:107-114 | a resumed item that does not start at once is at the end of the queue |
| UploadStatus.CancelCleansQueue | src/netcourier/web/static/app.js:116-128 | cancelling removes every entry of an item that is not uploading, and no other entry |
| UploadStatus.CancelKeepsOrder | src/netcourier/web/static/app.js:127-128 | and the others keep their order |
| UploadStatus.CancelledNeverStarts | src/netcourier/web/static/app.js:116-135 | an item cancelled before it got a call never gets one |
| UploadStatus.FirstComeFirstServed | src/netcourier/web/static/app.js:45-64 | without pauses and cancellations, items get their turn in the order in which they came |
| UploadScheduler.Scheduler.AddFile | src/netcourier/web/static/app.js:45-52 | performs the add step |
| UploadScheduler.Scheduler.ProcessNext | src/netcourier/web/static/app.js:54-64 | starts at most one queued item |
| UploadScheduler.Scheduler.PauseItem | src/netcourier/web/static/app.js:91-105 | performs the pause step |
| UploadScheduler.Scheduler.ResumeItem | src/netcourier/web/static/app.js:107-114 | performs the resume step |
| UploadScheduler.Scheduler.CancelItem | src/netcourier/web/static/app.js:116-135 | performs the cancel step |
| UploadScheduler.Scheduler.CallSettled | src/netcourier/web/static/app.js:65-89 | performs what follows the await, and starts the next item |
| WorkerPool.EachIndexTakenOnce | src/netcourier/web/static/app.js:189-251 | in every interleaving the requests go out for consecutive indices, each once and by one worker, at most four at a time |
| WorkerPool.FinishMeansAllAcked | src/netcourier/web/static/app.js:253-262 | the finish request goes out only after every index from the start chunk on was sent once and answered with success |
| WorkerPool.SmoothRunCompletes | src/netcourier/web/static/app.js:195-246 | without failure or pause the pool ends, within a bound, with all workers done |
| WorkerPool.SmoothPoolSendsAll | src/netcourier/web/static/app.js:189-251 | from its start, without failure or pause, the pool ends within a bound, and by then each index was sent exactly once and answered |
| WorkerPool.PoolStaysBusy | src/netcourier/web/static/app.js:195-251 | as many workers as chunks, but at most four, and none idle while chunks are left and nothing failed or is paused |
| WorkerPool.HaltedSendsNothing | src/netcourier/web/static/app.js:195-198 | after a failed request, or while the item stays paused, no further request goes out |
| WorkerPool.FlagsAreHistory | src/netcourier/web/static/app.js:236-241 | the error flag is up iff an answer failed, and an abort alone does not raise it; the pause is the last one asked for |
| WorkerPool.WorkerIsLost | src/netcourier/web/static/app.js:195-241 | exactly what loses a worker |
| WorkerPool.LostWorkerStaysLost | src/netcourier/web/static/app.js:253-262 | a pool that lost a worker never asks to finish |
| WorkerPool.UploadWorkers.TakeTurn | src/netcourier/web/static/app.js:195-205 | performs one turn of a worker |
| WorkerPool.UploadWorkers.OnResponse | src/netcourier/web/static/app.js:236-241 | performs an answer or an error |
| ChunkMath.CountsAgree | src/netcourier/web/static/app.js:170-175 | browser and bridge split every file into the same number of chunks, the ceiling quotient |
| ChunkMath.ChunkSize | src/netcourier/web/api/routes.py:264-269 | the chunk size is positive and fits the payload limit for every file |
| ChunkMath.AtMostHundredChunks | src/netcourier/web/api/routes.py:264-275 | a file has at most 100 chunks iff it is at most 1600 MiB |
| ChunkMath.SliceBody | src/netcourier/web/api/routes.py:377-388 | the slicing loop sends the ceiling number of nonempty pieces, in order, that join to the body |
| RateLimiter.WindowBound | src/netcourier/gateway/main.py:33-40 | no closed window lets more than floor(length / limit) + 1 calls of a user through |
| RateLimiter.UsersAreIndependent | src/netcourier/server/main.py:37-44 | the decision depends on the user's own passed calls alone; refused calls leave no trace |
| RateLimiter.Spacing | src/netcourier/gateway/main.py:33-40 | two calls of a user that pass are at least the limit apart |
| RateLimiter.PassesIffDue | src/netcourier/gateway/main.py:33-40 | a call passes iff the limit has elapsed since every call of that user that passed, so refused calls never delay it |
| RateLimiter.Limiter.IsAllowed | src/netcourier/gateway/main.py:33-40 | performs one decision |

## Left out

- Sockets, accept loops, threads, logging, configuration and the SQLite connection: plumbing around the steps.
- Database failures: a step's row updates always succeed, except where `FlushRace.dfy` lets one fail.
- Write buffering of the file handle and process crashes: what a handler wrote is on disk at once.
- Chat, history, reactions, typing, private messages: direct reads and writes with no deeper invariant.
- File deletion: only its update of the file's status; the owner check and the message update are left out.
- JSON shapes: fields that are absent or of another type, other than the checks of `UPLOAD_INIT` and of room names.
- ProcessServer.TransferEngine.HandleUploadInit: the file name columns of the file row are not kept, because nothing modelled reads them, and neither is a database failure.
- PlacementServices.BackendService.UpdateHeartbeat: a report carries load counters only, as those of process servers do; the copies of the counters in the `backend_servers` table are not kept, because nothing reads them.
- HttpChunked.ChunkedRoundTrip: the decoder reads streams without chunk extensions and trailer fields, because the bridge sends none.
- UploadScheduler.Scheduler.CancelItem: progress, speed, rendering and the start of the clean-up timers are not modelled; the timers are events of their own.
- The time between `DOWNLOAD_READY` and the installation of the downloader: chunks are taken to arrive after it.
- Two process-server objects in one: the transfer tables and the room tables are fields of one object in the program and of two classes here, because no handler uses both.
- Password hashing, account registration, `last_seen_at` in the presence table and the listing queries.
