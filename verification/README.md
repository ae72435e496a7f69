# A verified model of the clipboard service

The service keeps rooms of shared items. Several server instances sit in front of one database; each
holds the websockets of its own browsers and learns of the others' changes over a notification bus.
This project models the parts where that can go wrong, and proves what they keep.

| modules | what they model |
|---|---|
| Sync, SyncSafety, SyncConvergence, SyncRaces | the item table, what each instance announces and receives, and the browsers' replicas, over any number of instances and clients, statement by statement |
| SyncWhole, SyncSilent, SyncRuns, SyncUploads, SyncDivergence, Fanout | the same by whole operations, and the handlers that carry them out |
| Hub, Presence, HubLocks | who is connected: the hub's maps, the timed protocol between instances, and the hub's locks, buffers and threads |
| ChunkReader, Source, PostgresBlob, DiskBlob | payloads stored as chunk rows or files and read back |
| Lifecycle, Upload | items and payloads in two stores without a common transaction: interleaved and crashing, and one request at a time |
| Pbkdf2, PasswordHash, Base64Url, Decimal | the password hash and its stored form |
| Csv, CsvImport | the browser's CSV reader |
| Qr | the QR renderer |
| Socket | the browser's reconnecting socket |
| Bytes, Wrappers | shared types |

Code that changes state in place is a class or a method with the source's loops, tied by `ensures` to a
function on values; the properties are proved about those functions. The concurrent parts (rooms across
instances, item and payload life cycle, presence in time, locks, browser events) are step systems: a
state, a guard and an effect for each step, and theorems over every run.

## What the proofs found

- The server does not lock across "store, then announce", "load, then relay" and "register, list, then
  greet". `SyncSafety.SafetyStep` says exactly when that matters: a step leaves an item that nobody will
  take back if and only if it is late, that is, it shows an item whose removal this instance has already
  seen, or it drops the word of a removal that some replica still needed. `SyncRaces` reaches each kind of
  late showing. When each pair counts as one step, none of these is late any more, and
  `SyncRuns.WholeSafetyStep` says exactly what is: an upload's file announced after it was deleted or
  cleared, rows removed without a word while a replica holds them, and a needed word that the bus loses.
- A failed upload takes its files back without announcing it (internal/api/items.go:225-231). A browser that
  joined in between has listed them and keeps them: `SyncDivergence.RolledBackFilesCanSurvive` reaches that
  with no fault anywhere, and `SyncDivergence.UploadCanOutliveAClear` an upload that announces a file after
  its room was cleared. If no join lists a file between its insert and the end of its upload, and nobody
  deletes or clears it there, no deleted item survives, whether uploads succeed, fail or are left behind
  (`SyncUploads.UndisturbedUploadsLeaveNothing`). Expiry and a deletion whose reply is lost announce nothing
  either.
- A `room.cleared` on its way to an instance can wipe an item created there since: there is a run of whole
  operations that ends with nothing on its way and a client without a stored item
  (`SyncDivergence.ClearedRoomsCanDiverge`). A join that meets more than one page of items, or whose listing
  fails, misses some. An item is missed, too, when the one word that would bring it is dropped: never
  announced, as when a cancelled request leaves its file behind (`SyncDivergence.AbandonedItemsAreMissed`), not
  published, not heard, or of an item that cannot be loaded, for internal/api/fanout.go:62-71 drops the event
  on any error. `SyncConvergence.ConvergenceStep` has each of these as a step, with its exact condition, and
  no other step breaks convergence.
- Announcements trusted for 90 seconds and repeated every 30 leave exactly 60 seconds from computing a list
  to its arrival: within that, a live and occupied room that was heard of is always listed; with any more it
  can drop out. That holds as long as no list is published after one computed later. The server computes and
  publishes without a lock across the two, so it can happen: then an emptied room is listed again, or an
  occupied one is not (`Presence.StalePublishRevivesAnEmptyRoom`, `Presence.StalePublishHidesALiveRoom`). In
  whatever order, a room is listed exactly if the list that came last names somebody and came at most 90
  seconds ago (`Presence.ListedIfLastIsRecent`).
- Dropping a slow client from inside the broadcast loop asks for the write lock under the loop's own read
  lock. The comment at internal/hub/client.go:70-71 says this keeps the broadcaster from stalling; in the
  model the broadcaster never gets out, no client can join or leave again, and nothing else blocks
  (`HubLocks.TrappedForever`, `HubLocks.NothingElseBlocks`, `HubLocks.WriterGetsIn`). `Send` to one client
  holds no lock, and there the drop works.
- Row and payload stay together under two conditions, and each is needed. An upload whose row comes more than
  an hour after its chunk transaction began can find its payload swept (`Lifecycle.LateInsertDangles`); and an
  insert that was applied but reported as failed, as when a request is cancelled, makes the upload remove its
  payload from under the row (`Lifecycle.InsertInDoubtDangles`). Clearing a room in two statements, as the
  SQLite version does, can leave a payload without a row (`Lifecycle.TwoStatementClearCanLeak`); so can any
  deletion whose reply is lost.
- The rollback of a failed upload runs under the request's own context, so a request that was cancelled may
  leave rows or payloads behind; `Upload.Server.HandleUpload` says exactly which.
- The two payload stores part in three cases, and only there: the empty payload (Postgres stores no row and
  then reports it missing), a part cut off in mid-body (Postgres takes it for the end, Disk refuses it), and
  a limit of the largest int64 (Disk's limit wraps and it stores an empty file).
- A file of RFC 4180 reads back field for field if and only if each record is on one line and not blank, and
  no field has outer white space or outer quotes (`CsvImport.RecordsInvertFile`). A line break inside quotes,
  which the standard allows, is always lost.
- Parsing a stored hash is more liberal than writing one: base64 decoding skips line breaks and left-over
  bits, the iteration count may carry a plus sign, its "i=" may be missing, and an empty stored key matches
  every password.
- The page's `connected` flag goes wrong in exactly two ways (`Socket.TruthStep`): a room is left while
  connected, or a timer left over from before the connection replaces a socket on its way down. Until the
  next socket opens or closes, waking up then does not reconnect (`Socket.WrongFlagDelaysReconnecting`); the
  pending close event and timer still do.

## Model

| member | source | states |
|---|---|---|
| Sync.BroadcastViews | internal/hub/hub.go:177-197 | a broadcast reaches the replicas of its room on this instance, each as if the frame were applied last, and no other |
| Sync.DrainAppend | web/app.js:259-298 | a replica that handles its queue in order ends up as if each new frame were handled after all before it |
| Sync.StepKeepsWellFormed | internal/api/fanout.go:19-104 | every step of every instance keeps ids single-use and all notices, loads and listings about items that were once stored |
| SyncSafety.SafetyStep | internal/api/fanout.go:60-85 | from a safe state a step leads to a safe one if and only if it is not late: it neither shows an item whose removal is past nor drops a removal that a replica needs |
| SyncSafety.TimelyStepKeepsSafety | internal/api/fanout.go:60-89 | a step that is not late leaves every shown or queued item stored, or with its removal still unannounced, unpublished, in the inbox or in the queue |
| SyncSafety.LateStepBreaksSafety | internal/api/ws.go:59-79 | a late announcement, relay, greeting or drop leaves some replica an item whose removal is no longer on its way |
| SyncSafety.RunIsSafe | internal/api/fanout.go:19-104 | every run without a late step keeps all of this, for any number of instances, clients and interleavings, whatever is never announced, not published, not heard or not loaded |
| SyncSafety.ShownItemsAreAccounted | web/app.js:259-287 | in a safe state each item a tab took in since its socket was made is stored, or its removal is on its way to that instance or in that client's queue |
| SyncSafety.QuietClientsHoldOnlyStoredItems | web/app.js:259-287 | when nothing is on its way, clients hold only stored items of their own room, unchanged |
| SyncConvergence.ConvergenceStep | internal/api/fanout.go:62-71 | from a complete state a step leads to a complete one if and only if it does not lose an item: by an overtaking clear, a short page, a failed listing, or the drop of the last word of it, be it unannounced, unpublished, unheard or a failed load |
| SyncConvergence.RunIsComplete | internal/api/fanout.go:19-45 | every run without such a step keeps each stored item on every client of its room, or its creation on the way there |
| SyncConvergence.QuietClientsEqualTheTable | internal/api/ws.go:59-79 | when nothing is on its way, a client of a safe and complete state shows exactly the stored items of its room |
| SyncSilent.SilentRemoval | internal/api/items.go:225-231 | a removal without a word is needed by some replica exactly if one holds what was removed and no earlier removal of it is due there |
| SyncRuns.WholeIsTimely | internal/api/items.go:160-231 | an operation with its halves taken together contains a late step only as an upload announced too late, a removal without a word of what a replica holds, or a needed word lost by the bus |
| SyncRuns.WholeSafetyStep | internal/api/items.go:160-231 | seen from its ends, such an operation leaves nothing half done, and breaks safety if and only if it is one of these |
| SyncRuns.WholeLoss | internal/api/items.go:30 | such an operation loses an item exactly when a clear overtakes a newer item, a join meets items its page leaves out or cannot list, or the last word of an item that a client lacks is dropped |
| SyncRuns.NoDeletedItemSurvives | internal/events/events.go:92-123 | after every run of whole operations from the start, none of them late, once quiet, no client of any instance shows a deleted item or one of another room |
| SyncRuns.RoomsConverge | internal/api/fanout.go:19-45 | without room.clear, with nothing dropped and at most one page of items at each join, every run keeps rooms complete; once quiet, clients show all that is stored, and exactly that if no operation was late |
| SyncUploads.UndisturbedStep | internal/api/items.go:200-231 | while no operation lists, deletes or clears a file whose upload has not ended, no other row goes without a word and the bus drops nothing, such files stay unknown to every client and nothing is late |
| SyncUploads.UndisturbedUploadsLeaveNothing | internal/api/items.go:160-231 | after every run of such operations no deleted item survives, whether uploads are announced, taken back or left behind |
| SyncRaces.CreationCanBeAnnouncedLate | internal/api/ws.go:90-104 | a run in which an item is deleted, and that announced, before its creation is announced locally |
| SyncRaces.GreetingCanBeLate | internal/api/ws.go:59-79 | a run in which a welcome shows an item whose deletion the client's queue already holds |
| SyncRaces.RelayCanBeLate | internal/api/fanout.go:62-72 | a run in which a loaded item is relayed after its deletion was handled on that instance |
| SyncDivergence.ClearedRoomsCanDiverge | internal/api/fanout.go:84-85 | a run of whole operations, every join on one page, after which nothing is on its way and a client lacks a stored item of its room: the convergence theorem needs its restriction to runs without clears |
| SyncDivergence.AbandonedItemsAreMissed | internal/api/items.go:200-231 | such a run without clears, with one file that is stored and never announced |
| SyncDivergence.UploadCanOutliveAClear | internal/api/items.go:217-219 | a run after which an upload announces a file that was cleared from the room meanwhile |
| SyncDivergence.RolledBackFilesCanSurvive | internal/api/items.go:225-231 | a run, free of faults, after which nothing is on its way and a client shows a file that its upload took back |
| Fanout.Instance.BroadcastFrame | internal/hub/hub.go:188-197 | the loop over the clients appends the frame to each queue of the room here and to no other |
| Fanout.Instance.FanoutItemCreated | internal/api/fanout.go:19-30 | own clients get the whole item, then a notice with its id alone is published |
| Fanout.Instance.FanoutItemDeleted | internal/api/fanout.go:32-38 | own clients are told, then a notice with room and id is published |
| Fanout.Instance.FanoutRoomCleared | internal/api/fanout.go:40-45 | own clients are told, then a notice with the room is published |
| Fanout.Instance.HandleRemoteEvent | internal/api/fanout.go:60-85 | a creation is loaded, and dropped if its row is gone or the database does not answer; deletions and clears are passed on blindly |
| Fanout.Instance.ListenOnce | internal/events/events.go:92-123 | notices are handled in order, each against the database of its moment, and the instance's own are skipped: each client's queue grows by one frame for every foreign deletion and clear of its room and every foreign creation found, in order, and by nothing else |
| Fanout.JoinShowsTheNewest | internal/api/ws.go:59-79 | a socket that joins is welcomed with exactly its room's items, or with 200 of them if there are more, none older than one left out |
| Fanout.Replica.HandleServerMessage | web/app.js:259-287 | the tab's item map changes by frame: replaced by a welcome, one added or removed, or emptied |
| Fanout.DeliveryIsHandled | internal/api/fanout.go:60-85 | a delivery of the whole system is one call of the handler |
| Fanout.MissIsHandled | internal/api/fanout.go:62-71 | a delivery whose load fails is the call of the handler that finds the database failing: nobody is told, and the notice is spent |
| Fanout.CreationIsFannedOut | internal/api/ws.go:90-104 | a creation of the whole system is one row stored and one call of FanoutItemCreated |
| Fanout.DeletionIsFannedOut | internal/api/ws.go:106-118 | a deletion is one row gone and one call of FanoutItemDeleted |
| Fanout.ClearIsFannedOut | internal/api/ws.go:120-125 | a clear is one room emptied and one call of FanoutRoomCleared |
| Hub.Hub.constructor | internal/hub/hub.go:51-57 | starts with no rooms and no remote entries |
| Hub.Hub.Add | internal/hub/hub.go:65-72 | the client joins its room's set; the stored maps stay valid |
| Hub.Hub.Remove | internal/hub/hub.go:74-85 | the client leaves its room's set, and the room goes with its last client |
| Hub.Hub.LocalPeers | internal/hub/hub.go:88-100 | exactly one peer per client registered in the room |
| Hub.FreshPeers | internal/hub/hub.go:108-114 | the peers of exactly the entries that are not stale, with multiplicity |
| Hub.SortById | internal/hub/hub.go:115-116 | the same peers, ordered by id |
| Hub.FirstDifferenceDecides | internal/hub/hub.go:115-116 | ids compare by their first difference, the smaller character first, and a prefix comes before what it begins |
| Hub.Hub.Peers | internal/hub/hub.go:103-118 | the local clients and the peers of every fresh entry, no more and no fewer, ordered by id |
| Hub.Hub.SetRemotePeers | internal/hub/hub.go:121-136 | one entry is replaced, or taken out by an empty list, and no room is kept without an entry |
| Hub.Hub.RoomsWithLocalClients | internal/hub/hub.go:139-147 | exactly the rooms with a client here, each once |
| Hub.DropFrom | internal/hub/hub.go:159-164 | keeps exactly the fresh entries of a room and says whether one went |
| Hub.Hub.DropStaleRemotes | internal/hub/hub.go:151-173 | every stale entry and every room emptied by that goes; exactly the rooms that lost an entry are returned, each once |
| Hub.DroppingIsInvisible | internal/hub/hub.go:103-173 | now and at any later time every room lists the same peers as if nothing had been dropped |
| Hub.DroppingKeepsTheFresh | internal/hub/hub.go:155-164 | entry by entry, dropping keeps what is fresh and nothing else |
| Hub.SettingIsLocal | internal/hub/hub.go:121-136 | an announcement replaces the announcer's entry in that room and leaves every other entry |
| Hub.AnnouncementSwapsOneShare | internal/hub/hub.go:103-136 | the room's list changes by swapping the announcer's old share for the new one |
| Hub.AnnouncementIsLocal | internal/hub/hub.go:121-136 | no other room's list changes |
| Hub.LeavingUndoesJoining | internal/hub/hub.go:65-85 | a client that joins is added to its room and to no other, and leaving restores the map |
| Hub.ListedExactlyIfConnected | internal/hub/hub.go:94-100 | a peer is listed if and only if a registered client has its id and device, and there is one for each client |
| Hub.TakeEntry | internal/hub/hub.go:110-115 | the list does not depend on the order in which the entries are walked |
| Presence.HandlePresence | internal/api/fanout.go:87-97 | the sender's entry is replaced, and the room is told the new list: the old one with that share swapped |
| Presence.Beat | internal/api/fanout.go:106-126 | announces exactly the occupied rooms with their clients, drops what is stale, and tells exactly the rooms that lost an entry who is left |
| Presence.StepKeeps | internal/api/fanout.go:47-126 | every step, in whatever order lists are published, keeps at most 30 seconds between the lists of an occupied room, every list due in time, and the entry equal to the last delivery or expired |
| Presence.OrderStep | internal/api/fanout.go:47-56 | lists that were published in order stay so if and only if the step does not publish one after a list computed later |
| Presence.LastDeliveryIsRecent | internal/api/fanout.go:13-15 | in order, what was last delivered of a live, occupied room that was heard of is at most a heartbeat and a delivery old |
| Presence.LiveRoomStaysListed | internal/hub/hub.go:11-14 | with 60 seconds from list to arrival, in every run without a stale publish a live occupied room that was heard of is stored, trusted and in the list, as it was at most 90 seconds ago |
| Presence.OccupiedRoomIsHeardOf | internal/api/fanout.go:106-117 | in every run, stale publishes or not, a live instance's room occupied for longer than a heartbeat and the delay has been heard of |
| Presence.OccupiedRoomIsListed | internal/hub/hub.go:11-14 | so with 60 seconds from list to arrival, and no stale publish, it is listed |
| Presence.ListedIfLastIsRecent | internal/hub/hub.go:103-136 | in every run, stale publishes or not, a room is listed if and only if the list delivered last names somebody and came at most 90 seconds ago |
| Presence.CrashedInstanceFades | internal/hub/hub.go:149-173 | in every run, stale publishes or not, a silent instance is listed at most 90 seconds past the last receipt, and forgotten a heartbeat later at the latest |
| Presence.EmptiedRoomIsForgotten | internal/hub/hub.go:125-130 | in every run without a stale publish, once the news that a room emptied has arrived nothing is kept of it |
| Presence.StalePublishRevivesAnEmptyRoom | internal/api/fanout.go:47-56 | a run in which an old list published late brings a device back into a room known to be empty |
| Presence.StalePublishHidesALiveRoom | internal/api/fanout.go:47-56 | a run in which an old empty list published late hides a live, occupied, known room |
| Presence.SlowerBusHidesALiveRoom | internal/hub/hub.go:11-14 | for any delay above 60 seconds, a run without a stale publish in which a live, occupied, known room is not listed |
| HubLocks.StepKeeps | internal/hub/client.go:70-92 | every atomic action of any thread keeps the lock discipline, the loops' view of their room, and every client's buffer, once flag and registration in step |
| HubLocks.RegisteredUntilItsClose | internal/hub/client.go:36-86 | in every run a client is in its room exactly from its registration until its close takes it out, and no room is kept without a client |
| HubLocks.OutStaysOut | internal/hub/client.go:80-86 | a client that is out of its room never returns and is never taken out again |
| HubLocks.PresenceOmitsTheClosed | internal/hub/client.go:88-92 | the list computed when the reading side ends never holds that client, whichever side ran the close |
| HubLocks.FinishedBroadcastReachesEachOnce | internal/hub/hub.go:188-197 | in every run a finished broadcast put its frame exactly once into the buffer of each client it found, except the excepted one, and into no other |
| HubLocks.TheRoomHoldsStill | internal/hub/hub.go:188-197 | during the loop the room does not change and none of its clients has been cancelled |
| HubLocks.FullBufferTraps | internal/hub/client.go:70-78 | reaching a client turns into closing it from inside the loop if and only if its buffer is full |
| HubLocks.TrappedForever | internal/hub/hub.go:74-76 | from then on, in every run, that broadcast never finishes, no client joins or leaves, and once a writer waits no reader enters |
| HubLocks.NothingElseBlocks | internal/hub/hub.go:188-197 | if no reader is in that position, the waiting writer or one of the readers can always move |
| HubLocks.WriterGetsIn | internal/hub/hub.go:74-76 | in every run without a trap, whatever other threads do, a waiting writer has its turn before it and the readers inside have taken more steps than the clients they have still to reach, plus one each to leave |
| HubLocks.SlowClientTrapsTheHub | internal/hub/client.go:12-18 | a run from the start in which 32 unread frames lead there |
| ChunkReader.CopyRefines | internal/blob/postgres.go:119-128 | copying out of the right row returns a prefix of what is left and moves the position by it |
| ChunkReader.LoadsTheRightRow | internal/blob/postgres.go:131-143 | after loading, the cached bytes are the row that was asked for; it fails exactly when that row is neither cached nor stored |
| ChunkReader.SeekKeepsValid | internal/blob/postgres.go:145-162 | seeking keeps the cache the row its index names, for every offset and origin |
| ChunkReader.SeekLands | internal/blob/postgres.go:145-162 | a seek lands at offset from the start, from the position or from the end, and is refused exactly if that is negative or beyond an int64, or for another origin |
| ChunkReader.SeekingTheEndTellsTheSize | internal/blob/postgres.go:152-153 | seeking to the end answers the payload's length |
| ChunkReader.ReadRefines | internal/blob/postgres.go:112-129 | a read returns a prefix of the remaining bytes, non-empty for a non-empty buffer before the end, and EOF exactly at or past the end, or fails for a missing row |
| ChunkReader.ReaderIsACursor | internal/blob/postgres.go:102-162 | any sequence of reads and seeks gives the answers of a cursor over the payload, whose seeks are plain sums |
| Source.Reader.ReadFull | internal/blob/postgres.go:46 | fills the buffer from short reads: full without error, EOF on nothing, an early end in between |
| PostgresBlob.LayoutIsExact | internal/blob/postgres.go:44-61 | rows are numbered from 0 without gaps, join to the payload, and all but the last are one mebibyte long |
| PostgresBlob.LayoutGrows | internal/blob/postgres.go:44-61 | one more chunk adds one row after the others |
| PostgresBlob.SumOfLayout | internal/blob/postgres.go:75-82 | the sum of the row lengths is the payload's size |
| PostgresBlob.Postgres.InsertChunks | internal/blob/postgres.go:44-61 | for any split into short reads the transaction holds the layout of the payload, or is given up for the limit, the source or the database |
| PostgresBlob.Postgres.Write | internal/blob/postgres.go:32-69 | either the payload fits and its whole layout is committed, or no row is; behind an error rows are kept only if the commit itself was applied and reported as failed |
| PostgresBlob.Postgres.Open | internal/blob/postgres.go:71-89 | missing exactly when no row is stored, else a stream at the start with the size of the rows |
| PostgresBlob.Postgres.Remove | internal/blob/postgres.go:91-98 | all rows of that payload go, and no others |
| PostgresBlob.ChunkStream.Load | internal/blob/postgres.go:131-143 | the row named becomes the cached one, or nothing changes |
| PostgresBlob.ChunkStream.Read | internal/blob/postgres.go:112-129 | the stream does what the reader on values does, whose refinement is proved |
| PostgresBlob.ChunkStream.Seek | internal/blob/postgres.go:145-162 | the stream lands at offset from the start, from its position or from its end, or stays where it is if there is no such place; in step with the reader on values |
| PostgresBlob.ChunkStream.Close | internal/blob/postgres.go:164-167 | the cached row is let go, the position stays |
| PostgresBlob.ChunkStream.ReadRange | internal/blob/postgres.go:102-162 | seeking and reading until enough has come returns exactly that slice across row borders, and terminates, for any buffer size |
| DiskBlob.Disk.Copy | internal/blob/disk.go:46 | copies up to the limit from short reads |
| DiskBlob.PathsDiffer | internal/blob/disk.go:33-40 | different payloads are kept in different files, below a directory of their first two characters |
| DiskBlob.Disk.Write | internal/blob/disk.go:33-62 | stores the whole payload, or leaves no file of that id |
| DiskBlob.Disk.Open | internal/blob/disk.go:64-77 | gives back the stored bytes, or reports the file missing |
| DiskBlob.Disk.Remove | internal/blob/disk.go:79-89 | removes that file only; a file already gone is no error |
| DiskBlob.PostgresGivesBack | internal/blob/postgres.go:71-89 | what Postgres opens after a write is the payload, or nothing if it was empty |
| DiskBlob.ReadBack | internal/blob/postgres.go:71-129 | opening a stored payload and reading to its end, with any buffer, gives the payload, or reports it missing if it was empty |
| DiskBlob.PostgresRoundTrip | internal/blob/postgres.go:32-129 | a write to an empty store answers by size and source alone, and what is then opened and read is what the agreement below compares |
| DiskBlob.BackendsAgreeExactly | internal/blob/disk.go:33-77 | both stores refuse alike or store and give back alike, if and only if the payload is over the limit, or the limit is below the largest int64 and the source fails or ends cleanly after at least one byte |
| DiskBlob.LargestLimitDisagrees | internal/blob/disk.go:46 | at the largest int64 the limit wraps, and Disk stores an empty file |
| Lifecycle.IntegrityStep | internal/api/items.go:233-279 | from an intact state a step leads to an intact one if and only if it is neither an insert whose payload is gone nor the removal of a payload whose row is there |
| Lifecycle.OnTimeNeverDangles | internal/store/store.go:146-162 | a row inserted within an hour of its chunk transaction finds its payload there, and without inserts in doubt no payload is removed under its row |
| Lifecycle.BlobIntegrity | internal/api/items.go:314-356 | under any interleaving of uploads, deletes, clears, expiry and sweeps, with failures, lost replies to deletions and crashes anywhere, every row's payload is wholly stored, provided inserts are on time and none is applied and yet reported as failed |
| Lifecycle.InsertInDoubtDangles | internal/api/items.go:261-277 | without the second proviso it fails: a run, on time, in which an insert that was applied is taken for failed and its payload removed |
| Lifecycle.LateInsertDangles | internal/store/store.go:150-162 | one second past the hour a run ends with a row without its payload |
| Lifecycle.DeletionTakesExactly | internal/store/store.go:104-144 | a clear takes the rows of its room and an expiry those that expire by its time, with their payloads, and no others |
| Lifecycle.RowsChangeForAReason | internal/store/store.go:85-144 | after any run, a row that goes in a step has expired, or is deleted by id and room, or its room is cleared; one that comes is as it was inserted; any other is unchanged |
| Lifecycle.SweepTakesExactly | internal/store/store.go:146-162 | the sweep takes exactly the payloads without a row that are over an hour old |
| Lifecycle.NoLeakStep | internal/store/store.go:104-144 | from a state without unowned payloads a step leads to one if and only if it is none of these: a crash or failed removal that leaves a payload, a deletion whose reply is lost, a stale selection |
| Lifecycle.AtRestTheStoresMatch | internal/api/api.go:148-174 | after a run without those, and without late or doubtful inserts, at rest, the payload store holds the rows' payloads, whole, and nothing else |
| Lifecycle.TwoStatementClearCanLeak | internal/store/sqlite.go:102-118 | selecting paths and then deleting rows can leave a payload behind without any failure |
| Upload.Server.StoreUploadedPart | internal/api/items.go:233-279 | a file part is stored with its row, or refused; a refusal leaves the row exactly if its insert was applied after all, and the payload exactly if it was written and either reported as failed or not removable |
| Upload.Server.StoreParts | internal/api/items.go:180-209 | reads the form up to its end or its first refused part, storing one item per file part in order |
| Upload.Server.Rollback | internal/api/items.go:225-231 | takes back each created item, except what could not be deleted |
| Upload.Server.HandleUpload | internal/api/items.go:160-221 | succeeds exactly for a whole form with at least one file, all storable; then stores and broadcasts one item per file in order, with that file's size, the request's room and time, and the device named last before it; otherwise answers for the first part at fault, broadcasts nothing and leaves exactly the rows and payloads that could not be taken back |
| Upload.ItemsDescribeTheFiles | internal/api/items.go:191-203 | if a part is the j-th file, item j has its size, expires after the retention, and is from the last non-empty device field before it, sanitized, or else from the request's device |
| Upload.PayloadsAreTheFiles | internal/api/items.go:233-235 | and the payload stored for it is its own |
| Upload.Server.DeleteItem | internal/api/items.go:314-328 | a row of that room goes and its payload after it; or the row alone, if the reply was lost or the removal failed; or neither |
| Upload.Server.ClearRoom | internal/api/items.go:345-356 | exactly that room's rows go, then their payloads; a failed statement changes nothing, a lost reply leaves the payloads |
| Upload.Server.Sweep | internal/api/api.go:148-174 | exactly the expired rows go, then their payloads, then on Postgres the old payloads without a row; a failed expiry ends the round |
| Upload.FilledAddsExactly | internal/api/items.go:200-221 | storing the parts adds one row and one payload per file and touches nothing else |
| Upload.TakingBackRestores | internal/api/items.go:225-231 | deleting what was stored restores both stores |
| Upload.RollbackRemains | internal/api/items.go:225-231 | after the rollback, of all that was tried exactly the rows not deleted, an insert or write in doubt, and the payloads not confirmed or not removed remain |
| Upload.FailureRestoresExactly | internal/api/items.go:160-231 | an error exit leaves both stores exactly as before if and only if no row and no payload is among those |
| Upload.CleanFailureRestores | internal/api/items.go:160-231 | with a working clean-up, and no write or insert in doubt, it always does |
| Upload.CancelledUploadLeavesItsFirstFile | internal/api/items.go:200-231 | it may not: two files, the second too large, the request cancelled before the rollback |
| Pbkdf2.XorInto | internal/crypto/crypto.go:86-88 | the block becomes its xor with u, in place |
| Pbkdf2.NextRound | internal/crypto/crypto.go:81-89 | from U_(c-1) and the xor so far to U_c and the xor with it, in the same two buffers |
| Pbkdf2.DeriveBlock | internal/crypto/crypto.go:71-90 | the block is F(P, S, c, i) of section 5.2 of RFC 8018 |
| Pbkdf2.DerivePbkdf2 | internal/crypto/crypto.go:65-95 | the result is the derived key of section 5.2 of RFC 8018: the blocks joined and cut to kLen, for any pseudorandom function of fixed length |
| Pbkdf2.Int32IsBigEndian | internal/crypto/crypto.go:74-78 | the four octets after the salt are the block index, most significant first |
| Pbkdf2.TwoBlocksOfTwoRounds | internal/crypto/crypto.go:71-90 | written out for two blocks and two rounds: block indexes count from 1, and each round hashes the one before and is xored in |
| Pbkdf2.ShorterKeyIsAPrefix | internal/crypto/crypto.go:91-95 | cutting to a shorter length gives a prefix |
| Base64Url.DigitsAreTheAlphabet | internal/crypto/crypto.go:31-32 | the digits are A to Z, a to z, 0 to 9, "-" and "_" in this order, and nothing else has a value |
| Base64Url.LongestExampleOfTheStandard | internal/crypto/crypto.go:31-32 | "foobar" is written as in section 10 of RFC 4648; the shorter examples are beside it |
| Base64Url.DecodeUndoesEncode | internal/crypto/crypto.go:33-34 | decoding gives back every byte string, and no encoding holds a "$" |
| Base64Url.BreaksAreSkipped | internal/crypto/crypto.go:48-56 | a line break anywhere in a text changes nothing of what it decodes to |
| Base64Url.EncodeAfterDecode | internal/crypto/crypto.go:48-56 | every text of digits but those of a bad length decodes, and encoding the result clears the left-over bits of its last digit |
| Base64Url.LeftOverBitsAreIgnored | internal/crypto/crypto.go:48-56 | two such texts decode alike if and only if they agree in all but the left-over bits: four after two digits, two after three |
| Decimal.ItoaAppends | internal/crypto/crypto.go:34 | a further digit makes ten times the number and that digit, so the text is decimal |
| Decimal.AtoiUndoesItoa | internal/crypto/crypto.go:44 | every iteration count within an int64 reads back from its decimal digits |
| PasswordHash.SplitFormat | internal/crypto/crypto.go:38-42 | splitting a written hash at "$" gives its five parts |
| PasswordHash.ParseUndoesFormat | internal/crypto/crypto.go:24-56 | a written hash parses back to its iteration count, salt and key |
| PasswordHash.HashStartsWithSchemeAndCount | internal/crypto/crypto.go:24-34 | a hash begins with "$pbkdf2-sha256$i=600000$" |
| PasswordHash.HashHoldsItsParts | internal/crypto/crypto.go:24-34 | and holds that count, the salt, and 32 bytes derived from the password with both |
| PasswordHash.FormatIsInjective | internal/crypto/crypto.go:33-34 | two written hashes are equal only for equal counts, salts and keys |
| PasswordHash.HashVerifies | internal/crypto/crypto.go:24-63 | every password verifies against its own hash for every salt, and another one does if and only if it derives the same key |
| PasswordHash.CountIsReadLiberally | internal/crypto/crypto.go:44 | a count without "i=", or with a plus sign, is read as the plain one |
| PasswordHash.BrokenKeyIsReadAlike | internal/crypto/crypto.go:53-56 | a line break inside the stored key is skipped |
| PasswordHash.EmptyKeyVerifies | internal/crypto/crypto.go:58-62 | the stored key sets the length compared, so every password verifies against an empty one |
| Csv.TokenizeLine | web/vault.js:733-755 | the character loop with its quote flag computes the tokens of the line |
| Csv.ScanFindsFields | web/vault.js:738-752 | on an encoded record the scan finds the fields, whatever commas and doubled quotes they hold |
| Csv.CleanKeepsTidy | web/vault.js:754 | trimming and stripping quotes keeps a field if and only if it has no outer white space and no outer quote |
| Csv.CleanPeels | web/vault.js:754 | what it takes off any other is the white space around, one quote at either end, and the white space within these |
| Csv.TokensInvertEncoding | web/vault.js:732-755 | every encoded record comes back cleaned, and unchanged if and only if all its fields are tidy |
| CsvImport.ParseClientCSV | web/vault.js:728-797 | the import loop gives the entries of the records the text is read as |
| CsvImport.ColIdxIsTheFirst | web/vault.js:759-771 | a column is found under the first candidate that names one, at its first place, and none is found only if no candidate names any |
| CsvImport.RecordsInvertFile | web/vault.js:728-755 | a file of RFC 4180 reads back field for field if and only if each record is on one line and not blank, and no field has outer white space or outer quotes |
| CsvImport.ImportInvertsExport | web/vault.js:756-797 | logins exported under a header that names a password column come back: exactly those with a password, in order, each under its title, else its site, else a fixed one |
| CsvImport.WithPasswordKeepsOrder | web/vault.js:773-797 | those with a password stand in their order, each once |
| CsvImport.PlainHeaderNamesTheColumns | web/vault.js:767-771 | the usual header names the five columns in its order |
| CsvImport.LoginHeaderNamesTheColumns | web/vault.js:767-771 | so does the header with "login_" names |
| CsvImport.EachColumnHasItsNames | web/vault.js:767-771 | each column is found under exactly its own names |
| CsvImport.QuotedLineBreakSplitsTheRecord | web/vault.js:729 | no file with a line break inside a field, which RFC 4180 allows in quotes, reads back |
| Qr.RenderRow | internal/api/qr.go:52-67 | the scan of one row emits a segment for each of its runs, left to right |
| Qr.QrPath | internal/api/qr.go:48-68 | the nested scan terminates with the path of all runs |
| Qr.RunsAreExact | internal/api/qr.go:49-68 | the runs are maximal stretches of dark modules, in reading order with gaps, and cover every dark module |
| Qr.PathReadsBack | internal/api/qr.go:62-64 | the path data of any runs reads back, command by command, as exactly their rectangles |
| Qr.RenderingFillsTheDarkModules | internal/api/qr.go:43-68 | for every matrix, the path read back fills the square four right and four down of a module's place if and only if the module is dark |
| Qr.RenderingIsDisjoint | internal/api/qr.go:14-15 | no point is filled twice, and none outside the symbol, so the four-module margin stays light |
| Socket.BackoffIsBounded | web/app.js:245-251 | the delay starts at a second, doubles with each attempt, and stays at 15 seconds from the fifth |
| Socket.StepKeeps | web/app.js:139-251 | every event keeps one live socket, an open room with something to come, and no timer or interval the page does not know |
| Socket.OneSocketForTheOpenRoom | web/app.js:186-223 | over any order of events a socket that is connecting or open is the page's own and for the open room |
| Socket.OpenRoomIsNeverStranded | web/app.js:215-251 | over any order of events an open room has a live socket, the close event of its socket still to come, or a timer due within 15.4 seconds |
| Socket.ClosedRoomIsQuiet | web/app.js:168-182 | without an open room nothing is live, pending or beating |
| Socket.WhatIsPendingReconnects | web/app.js:215-251 | when the pending close event and timer do come, the room has a live socket |
| Socket.LossesSetTheDelay | web/app.js:197-251 | over any order of events, losing the page's socket leaves one timer, whose delay is 1, 2, 4, 8 or at most 15 seconds plus the jitter by the number of losses since a socket last opened or waking up last reconnected |
| Socket.FirstLossIsRetriedSoon | web/app.js:197-223 | so the first loss after a socket opened is retried within 1.4 seconds, however many attempts failed before it |
| Socket.OneHeartbeat | web/app.js:231-241 | over any order of events, a socket that opens has the only heartbeat, and a beat that finds it no longer open is the last |
| Socket.TruthStep | web/app.js:139-251 | the connected flag stays right if and only if the event neither leaves a room while connected nor fires a left-over timer that replaces a socket going down |
| Socket.FlagIsTruthful | web/app.js:186-223 | over any order of events without those, the flag is set exactly while the page has a socket that was opened |
| Socket.WakingReconnects | web/app.js:1033-1044 | in an open room waking up ends with a live socket if and only if there was one or the flag was down, and without any socket the flag is down |
| Socket.WrongFlagDelaysReconnecting | web/app.js:168-182 | a run in which the flag, kept from the room before, stops waking up from replacing a failed socket |
| Socket.LeftoverTimerMisleads | web/app.js:245-251 | a run in which a timer left over from before the connection makes the flag wrong |
| Socket.Page.Connect | web/app.js:186-195 | makes a socket for the open room unless a live one is there |
| Socket.Page.CloseRoom | web/app.js:168-182 | drops the room, its timer, its heartbeat and its socket |
| Socket.Page.OpenRoom | web/app.js:154-166 | sets the room and connects |
| Socket.Page.Route | web/app.js:139-150 | leaves the old room before entering another, and stays put on the same path |
| Socket.Page.HandleOpen | web/app.js:197-203 | resets the attempts, sets the flag and restarts the heartbeat |
| Socket.Page.HandleClose | web/app.js:215-223 | ignores a socket that was replaced, else schedules a reconnect while a room is open |
| Socket.Page.ScheduleReconnect | web/app.js:245-251 | one more attempt, and one timer in place of the old one |
| Socket.Page.StartHeartbeat | web/app.js:231-241 | one interval in place of the old one |
| Socket.Page.Tick | web/app.js:233-240 | pings an open socket, and otherwise stops itself |
| Socket.Page.Wake | web/app.js:1033-1044 | connects at once if a room is open and the page is not connected |

## Left out

- Sync.StepKeepsWellFormed: time is left out; an item that expires is a row removed without a word, when it stops being listed.
- SyncSafety.ShownItemsAreAccounted: a tab that is offline, or has a new socket and awaits its welcome, still shows what it held before; a replica starts empty with its socket, because the welcome replaces all of it.
- SyncRuns.RoomsConverge: only for runs in which nothing is dropped; SyncRuns.WholeLoss is the exact condition. Which notices are too long to publish is left open.
- SyncRuns.NoDeletedItemSurvives: only for runs without a late operation, because the code does not keep it otherwise; SyncRuns.WholeSafetyStep is the exact condition.
- Fanout.Replica.HandleServerMessage: the tab's own optimistic delete (web/app.js:395-401), peers, limits and rendering are left out.
- Fanout.Instance.HandleRemoteEvent: the presence event is Presence.HandlePresence; an instance's id is taken never to equal a client's, so nobody is excepted from a relay.
- Hub.Hub.Peers: the clock is a parameter, and clients are values told apart by their fresh ids.
- Presence.StepKeeps: one announcer and one receiver for one room, with everything else that reaches the receiver arbitrary; heartbeats are on time, and no announcement is lost.
- Presence.LiveRoomStaysListed: only for runs without a stale publish, since the source does not promise more; the runs that show it are proved beside it.
- Presence.EmptiedRoomIsForgotten: only for runs without a stale publish, for the same reason.
- HubLocks.StepKeeps: threads, locks and buffers are values in a step system rather than objects, because they interleave; a buffer is its fill level and the set of broadcasts it was sent, not the frames in order; the websocket's own reads, writes and pings are any moment at which a pump may end.
- ChunkReader.ReaderIsACursor: database errors other than a missing row are not modelled.
- DiskBlob.Disk.Write: failing file operations are not modelled.
- DiskBlob.Disk.Open: the check that a path stays below the root, and errors other than a missing file, are not modelled.
- DiskBlob.Disk.Remove: the same, and the removal of an emptied shard directory.
- Lifecycle.AtRestTheStoresMatch: an empty payload counts as stored.
- Upload.Server.StoreUploadedPart: kind, type, image size and file name of an item are left out.
- Upload.Server.StoreParts: a device field stands for what is read of it, at most 128 bytes, and for nothing if it cannot be read.
- Upload.Server.HandleUpload: opening the room, which may fail first, is left out; ids and the outcome of each store call are parameters.
- Upload.Server.Sweep: rooms are not stored here, so pruning empty ones is left out; which payloads are old enough is a parameter.
- PasswordHash.HashVerifies: the random salt and HMAC-SHA256 are parameters, and comparing in constant time is plain equality.
- CsvImport.ParseClientCSV: strings are sequences of characters rather than UTF-16 units; lower-casing and cleaning a domain are parameters.
- Qr.QrPath: the encoder's matrix is given, and the fixed SVG frame around the path is left out.
- Socket.StepKeeps: status texts, banners and the storage of the last room are left out; the number of attempts does not overflow.
- HTTP handling, JSON, headers, static files, CORS, logging and the websocket, database and QR encoder libraries are not part of this model.
- AES-GCM encryption of secrets, accounts, sessions, OAuth and secret storage are thin wrappers over libraries or single queries.
- Room codes, device names, version comparison and configuration would only add easy members.
- The browser extension, the service worker, rendering and packaging are user interface; the server's own CSV import leaves its quoting to a library that is not part of this model.
