# Relay server: a verified model

The relay keeps players, rooms and sockets in one state that a single worker changes, one command at a time. This
project models that state machine together with the parts around it - stored worlds, the datagram channel, the queues,
the notification jobs, the log and the admission of connections - and proves what holds of every run.

How the files fit together:

- `Model`, `Rules`, `Sessions`, `Quota`, `Rates`, `Udp`, `Bytes`, `IndexSet`: the data, and every operation as a function
  from state to state. `Relay` puts the operations together into commands and runs.
- `Storage` and `Server`: the store and the server as objects whose methods change fields step by step, in the order in
  which the source does; each is proved to go exactly where its function goes. Ownership in the source rules out
  aliasing, so rooms, players and connections are values held in the maps of these objects.
- `Invariants`, `Preservation`, `Safety`, `Sockets`, `Closings`, `Absence`, `Departures`, `Outcomes`, `Starting`, `Rosters`:
  membership, ownership, sockets and accounts.
- `Worlds`, `History`, `Losses`, `Lasting`, `Stores`, `Restart`, `Files`: stored worlds in memory, on disk, across failing
  saves, restarts and crashes.
- `AntiReplay`, `Presence`, `Handling`, `Opening`, `Keys`, `Reach`, `Channel`, `Provenance`, `Reaching`, `Replays`,
  `Sequences`, `Packets`, `Erasure`: the datagram channel.
- `Queue`, `QueueRuns`, `QueueBudget`, `Frames`, `Outbox`: the delayed queue and the outgoing queue.
- `Meters`, `Limits`, `Refusals`, `Admission`: the fixed-window limits.
- `Transfer`, `Uploads`, `Stalls`, `Commits`, `Jobs`, `Delivery`, `Pruning`, `Logs`, `Paging`: uploads and downloads, notification jobs, the
  disk quota, log rotation and the paged room list.
- `Scenarios`: two concrete runs.

A run starts with no player, room or socket over an arbitrary disk, whose worlds remember at most 128 distinct events as
the server writes them. Commands carry what the outside decides: the time,
fresh identifiers and secrets, storage outcomes, and verdicts on JSON lengths. The keyed hash is an arbitrary function.
Three fields of the state are history for the statements only: the identifiers drawn, the worlds evicted by the quota and
the socket numbers given out.

Four things hold less than one might expect, and the project says exactly when:

- A login may spell the account's identifier in other letter case. Memory is searched by the exact text and the disk in
  lower case, so such a login finds the stored record, which then takes the place of the one in memory without the steps
  that move an account. Membership survives a message that authenticates exactly when it is not such a login of an account
  that is in a room (`Outcomes.MessageKeepsInvariantsExactly`, `Scenarios.RecasedLoginBreaksMembership`); the statements
  about runs are about runs without one.
- A refused entry drops an empty room from memory. If its last save failed, the file on disk is older or missing, and what
  changed since is lost (`Losses.EnterLosesExactly`, `Scenarios.RefusalLosesAWorld`). Nothing else loses a stored world
  but eviction, whichever saves fail (`Lasting.WorldGoesOn`).
- A committed immediate notice may renew an earlier scheduled job, which stays scheduled, so a commit can leave two
  scheduled jobs, but never three (`Jobs.TwoScheduledExactly`, `Jobs.TwoScheduledJobs`).
- A long enough chunk frame of any member that is not the owner's next chunk discards the open upload
  (`Uploads.BinaryDropsExactly`); it never touches what was committed.

## Model

| member | source | states |
|---|---|---|
| Safety.MembershipHolds | rust/server.rs:421-562 | in every state of every run without displacing logins a player is active in a room exactly when its record names that room; an occupied room holds its owner and at most `max` members; members of a fixed game are on its roster; nobody is active and reserved at once; only persistent rooms stay empty; a player without a socket is in no room |
| Safety.RunHolds | rust/server.rs:274-562 | every state of every run without displacing logins satisfies the cross-map invariants, with members listed by entry time, uploads in step with their rooms and at most 128 distinct remembered events |
| Safety.StepHolds | rust/server.rs:274-703 | each command but a displacing login, whatever its storage outcomes, takes a state that satisfies the invariants to another |
| Outcomes.MessageKeepsInvariantsExactly | rust/server.rs:320-391 | a message that authenticates keeps the invariants exactly when it is not a login in other letter case, with the right secret, of an account that is in a room, and that gets through |
| Outcomes.LogInKeepsInvariantsExactly | rust/server.rs:325-391 | the same for the login itself, with the stored record found or not |
| Scenarios.RecasedLoginBreaksMembership | rust/server.rs:328-371 | a run in which a member of a room logs in on a second socket in other letter case: the room still lists it, its record names no room, and its first socket stays open |
| Sockets.NobodySharesASocket | rust/server.rs:274-419 | in every run a player's socket exists and names that player, so no two players share one |
| Sockets.SupersededSocketIsHarmless | rust/server.rs:274-293 | closing a socket that its account no longer uses removes that socket and its queued frames and changes nothing else |
| Sockets.SupersededSocketIsMute | rust/server.rs:564-577 | a message on such a socket changes nothing |
| Sockets.DirectLookupsSucceed | rust/server.rs:685-703 | in every run a request finds its player on the socket it came from and the room its record names |
| Sockets.DelayedLookupsSucceed | rust/server.rs:1315-1344 | in every run so does a request released from the delayed queue, in the state in which its turn comes |
| Sockets.LeavingKeepsAccounts | rust/server.rs:355-362 | an account that leaves its fixed game on the way to a new socket is still known afterwards, on its old socket |
| Sockets.CreatedRoomIsThere | rust/server.rs:1072-1099 | a created room is entered by its creator, who owns it, and every other room is as before |
| Rosters.RosterIsSettled | rust/server.rs:1259-1281 | in every run, whichever saves fail, a started game's roster, flags, capacity and start data never change, in memory or on disk, and the members of a fixed game in memory are on its roster |
| History.EldestSucceeds | rust/server.rs:545-553 | when an owner leaves others behind, the earliest-entered remaining member owns the room, in the next generation |
| Departures.LeaveExactly | rust/server.rs:495-562 | a departure, whole: the owner of a started game with a fixed roster and no migration takes everybody out and ends the room; any other leaves the rest in their order under the same owner or the first of them in a new generation; reservations, the leaver's upload, the stored or vanished empty room and every other room are as stated |
| Departures.CreateExactly | rust/server.rs:1072-1099 | a room is created exactly when its creator is in none, fewer rooms than allowed are in memory and its description fits, and then as asked for; else nothing changes |
| Departures.LoginLeavesFixedGame | rust/server.rs:355-391 | an account that logs in again leaves a started game with a fixed roster first, as one that lost its socket, and no other room; where storage works it is on disk with its secret |
| Outcomes.EntryExactly | rust/server.rs:421-482 | a player gets in exactly when it is in no room, the room is in memory or readable on disk, not full, and open with the right password or already started with the player on its roster or reserved; otherwise no player changes |
| Outcomes.DisconnectedPlayerMayReturn | rust/server.rs:495-518 | after losing its socket in a started game that goes on, a player would be let in again at once |
| Outcomes.UpdateDecidesNextEntry | rust/server.rs:1191-1227 | after the owner's update before the start was handled, another player gets in exactly when there is room, the room is not closed and the password is right, by what an accepted update named and by the old settings otherwise; an update that is not accepted changes nothing of this |
| Outcomes.RosterDecidesReturn | rust/server.rs:1259-1281 | in every run, whichever saves fail, a player gets into a fixed game that started, at whatever later time, exactly when it is found, has room by its capacity at the start, and the player was on the roster at the start |
| Outcomes.StartedForGood | rust/server.rs:1191-1281 | in every run, once a game started no request starts it again or changes its settings, not even after unloading and failed saves |
| Starting.StartIsKept | rust/server.rs:1259-1281 | in every run, from an accepted start on, in memory and on disk: the flags are those of the request, a stored game holds exactly the start data that was sent, and a fixed roster is who was in the room then |
| Outcomes.NewestEventsRemembered | rust/server.rs:1128-1160 | after any series of notification requests the room remembers exactly the newest 128 accepted events, in order and each once, and nothing else of it changed |
| Outcomes.ForgottenExactly | rust/server.rs:294-319 | an account is forgotten exactly when it is offline for the account lifetime and on no fixed roster in memory; its reservations go with it |
| Absence.OfflineSince | rust/server.rs:274-293 | in every run a player without a socket is stamped with the time of the command that took its last socket, and has been without one since |
| Absence.ForgottenInTime | rust/server.rs:294-319 | in every run an account goes from memory with a command exactly when the command runs an expiry the account lifetime or more after the account lost its last socket, it is on no roster of a fixed game in memory, and it is not logging in with that command |
| Stores.AccountsLast | rust/server.rs:328-391 | in every run an account on disk stays there with its secret, and its record in memory never has another |
| Outcomes.LogInExactly | rust/server.rs:324-390 | an account moves to a socket exactly when it is found and the secret is right; in its own spelling its old socket is then closing and none of its frames is queued; in another spelling the stored record takes its place and its old socket is untouched |
| Closings.AuthenticateCloses | rust/server.rs:334-403 | a message that authenticates leaves its socket closing exactly when the account is unknown or the secret wrong, or a new account meets the limit, an unreadable record being neither; of other sockets it closes exactly the one it moves the account from |
| Closings.ClosingExactly | rust/server.rs:564-684 | in every run a socket is closing exactly when an earlier command made it close: the server's own closing, too many or too large a message, a refused authentication, an overflow of the queue, or its account's login elsewhere |
| Closings.ClosingIsDeaf | rust/server.rs:569-571 | from then on no message on it changes anything and none of its frames reaches the handlers |
| IndexSet.RemoveKeepsOrder | rust/server.rs:510 | removing a member keeps the order of the others |
| ServerObject.Server.Perform | rust/server.rs:564-703 | a command on the object leads to the state and the packets of the state machine and keeps the invariants |
| ServerObject.Server.Leave | rust/server.rs:495-562 | the object after a departure: players out, room handed on, unloaded or gone, as the rule says |
| ServerObject.Server.Settle | rust/server.rs:535-562 | the room left goes back under its next owner, to disk, or away |
| ServerObject.Server.Enter | rust/server.rs:421-482 | the object after an entry from memory or disk, admitted or refused |
| ServerObject.Server.Keep | rust/server.rs:483-494 | an empty persistent room is saved and the quota enforced, or it stays in memory |
| ServerObject.Server.Disconnect | rust/server.rs:274-293 | the object after a socket is gone: its frames dropped, its account offline and out of its room |
| ServerObject.Server.Expire | rust/server.rs:294-319 | the object after overdue accounts and their reservations are gone |
| ServerObject.Server.Authenticate | rust/server.rs:320-419 | the object after a login, in either spelling, or a new account on a socket |
| ServerObject.Server.LogIn | rust/server.rs:325-374 | the account found in memory or on disk takes its place in memory, leaves its fixed game and moves to the new socket |
| ServerObject.Server.Bind | rust/server.rs:364-391 | the old socket closes and loses its frames; account and new socket name each other; the account is saved |
| ServerObject.Server.CreateRoom | rust/server.rs:1072-1099 | the object after a room was created and entered, or refused |
| ServerObject.Server.RoomMessage | rust/server.rs:1116-1313 | the room after any request inside it, and the room's jobs after a commit |
| ServerObject.Server.Handle | rust/server.rs:882-1115 | the object after any JSON request |
| ServerObject.Server.Binary | rust/server.rs:704-728 | only a chunk frame for a persistent room changes anything |
| ServerObject.Server.Receive | rust/server.rs:564-684 | the object after a WebSocket message: counted, refused, answered, queued or dispatched |
| ServerObject.Server.Sweep | rust/server.rs:1315-1407 | the object after a sweep: due frames released, stalled uploads dropped, empty rooms saved, accounts expired |
| ServerObject.Server.Stop | rust/server.rs:1409-1419 | every socket is closing; persistent rooms are saved in order up to the first failure |
| ServerObject.Server.DatagramAt | rust/udp.rs:113-248 | the checks of a datagram in order lead to the state and the packets of the rule |
| ServerObject.Server.Deliver | rust/udp.rs:211-241 | the loop over recipients computes the spread of a data packet |
| Worlds.KeepLooks | rust/server.rs:483-494 | saving, failing to save and evicting leave each world as it was, in memory or on disk, or record it as evicted |
| Worlds.LeaveRests | rust/server.rs:495-562 | a departure, even with a failing save, changes no world but for ownership, by generations |
| Worlds.EnterRests | rust/server.rs:421-482 | with no room waiting for a save, an entry, admitted or refused, changes no world but for ownership |
| Losses.FileIsEarlier | rust/server.rs:421-562 | in every run, whichever saves fail, the file of a room in memory holds the room or an earlier version of it: generation and revision no larger, the same owner or state where they are equal, the same settings, roster and start data |
| Losses.EnterLosesExactly | rust/server.rs:421-462 | an entry loses a stored world exactly when it is refused by the empty room of that world in memory, and that room has no readable file or differs from it in generation, revision, metadata or events |
| Losses.RunEnterLosesExactly | rust/server.rs:421-462 | the same for every entry that runs in any run, at once or from the delayed queue |
| Losses.WaitsAfterFailedSave | rust/server.rs:483-494 | in every run a room is empty in memory only after a command whose saves fail |
| Lasting.WorldGoesOn | rust/server.rs:421-562 | in every run, whichever saves fail, as long as no refused entry drops a world unsaved: each generation has one owner, each revision one state, a started game keeps its roster and start data, a stored world vanishes only by eviction, and nothing gone returns |
| Lasting.SavedRunsDropNothing | rust/server.rs:483-494 | where all saves succeed no refused entry does that |
| Scenarios.RefusalLosesAWorld | rust/server.rs:456-494 | a run in which a committed world is in memory with its save failed, and a stranger who is refused makes it vanish, without eviction |
| Restart.KeepAllRests | rust/server.rs:1345-1365 | the sweep's saves lose nothing, whichever fail |
| Stores.SweepSavesWaiting | rust/server.rs:1345-1365 | in every run a sweep that meets all rooms waiting in memory, with no save failing, leaves none waiting |
| Stores.SaveMeetsQuota | rust/server.rs:483-494 | a save leaves the store within its quota or with files of rooms in memory only; the world is on disk as it was or evicted, with its jobs, like the others that went |
| Stores.SizeIsFileLength | rust/store.rs:236-256 | a world counts towards the quota with exactly the bytes of its file |
| Restart.RestartKeepsWorlds | rust/server.rs:1409-1419 | after shutdown and restart a world is the room whose save was reached and succeeded, else the file from before, or was evicted |
| Restart.RestartLosesNothing | rust/server.rs:1409-1419 | if all saves of a shutdown succeed every persistent world, occupied or waiting since an earlier save failed, comes back with its content, owner and generation, or was evicted |
| Restart.RestartRests | rust/store.rs:17-62 | so histories continue across restarts |
| Files.FileRoundTrip | rust/store.rs:131-193 | a world is read back from its file exactly when its header is at most one mebibyte long |
| Files.CrashLeavesWholeFile | rust/store.rs:74-91 | after any number of the steps of a replacement and any loss of unsynced data the file is the old one or the new one, complete, and no third file changes |
| Files.SyncMatters | rust/store.rs:87 | without the sync a torn file is possible |
| History.RunEvolves | rust/server.rs:421-562 | in every run with successful saves, from any state to any later one, each generation of a world has one owner, each revision one state, a started game keeps its roster and start data, a persistent world vanishes only by eviction, and nothing gone returns |
| Lasting.OneOwnerPerGeneration | rust/server.rs:463-468 | so generations never fall, and the same generation means the same owner, across unloading, failing saves and reloading |
| Lasting.CommitIsCompareAndSwap | rust/server.rs:837-846 | when an upload can be committed, neither owner nor state nor revision changed since the room it was begun against |
| History.OpenUploadsAreCurrent | rust/server.rs:511-513 | in every run an open upload has the owner, the generation and the revision of its room |
| History.OnlyCommitsChangeState | rust/server.rs:837-871 | an accepted commit installs the complete upload and raises the revision by one; no other request changes state or revision |
| Commits.CommitExactly | rust/server.rs:837-871 | a commit is accepted exactly when the owner of a stored game commits its own upload, complete to the last byte, with notices to players on the roster, and the jobs can be written; then the bytes are the state of the next revision, stamped now, every notice not remembered has its job and waiting jobs stay; else nothing changes |
| Uploads.BinaryDropsExactly | rust/server.rs:704-779 | a binary frame discards the open upload exactly when its sender is in the room and it is a chunk frame of at least 22 bytes but not the owner's next chunk; the next chunk is put in place; any other frame changes nothing in the room |
| Uploads.DispatchEndsExactly | rust/server.rs:685-880 | a frame that is handed to the handlers ends an open upload exactly when it is such a chunk, the owner's leaving, a new beginning by the owner or an accepted commit |
| Uploads.UploadSurvives | rust/server.rs:274-880 | in every run an open upload stays open with every byte received until such a frame runs, its owner loses its socket or moves to another, or it makes no progress for half a minute |
| Stalls.NothingStalls | rust/server.rs:1345-1355 | after a sweep no room in memory holds an upload without progress for more than half a minute |
| Stalls.SweepDropsExactly | rust/server.rs:1345-1355 | in every run a sweep drops an upload that its released frames left open exactly when it made no progress for longer, and leaves any other as it is |
| Stalls.ProgressOrigin | rust/server.rs:758-836 | in every run an open upload carries the time of the command that began it or gave it its latest chunk, and is as that command left it |
| Transfer.UploadStores | rust/server.rs:758-880 | for every split into non-empty chunks, begin, chunks and commit install the concatenation |
| Transfer.Save | rust/tooling/mod.rs:466-491 | the client's upload loop installs its bytes in the next revision |
| Transfer.Load | rust/tooling/mod.rs:492-507 | the client's download loop ends and returns the stored bytes |
| Transfer.SaveThenLoad | rust/tooling/mod.rs:466-507 | what one client saves another loads |
| Transfer.ChunkFits | rust/server.rs:789-810 | each chunk frame is inside both byte budgets, names its offset and holds the bytes from there |
| AntiReplay.RunAcceptsExactly | rust/udp.rs:12-39 | in every run a number is accepted exactly when it is non-zero, was not accepted before and is above or less than 64 below every accepted one |
| AntiReplay.AcceptRefinesSet | rust/udp.rs:18-38 | the two machine words track the set of accepted numbers, up to the largest word |
| AntiReplay.Replay.Accept | rust/udp.rs:18-38 | the method accepts exactly the fresh numbers and records them |
| Packets.WrittenReadsBack | rust/udp.rs:89-108 | a written packet reads back field by field and verifies under its key |
| Packets.OnlyWrittenVerifies | rust/udp.rs:120-168 | a framed packet that verifies is the encoding of its own fields |
| Sequences.NumberIsCount | rust/udp.rs:77-87 | in every run a packet carries on the wire one more than the number of packets sent on its connection since its session was opened, whatever its kind |
| Sequences.LaterNumberIsLarger | rust/udp.rs:77-87 | in every run, of two packets sent on one connection under one key the later carries the larger number, unless the socket supplied that key again in between |
| Replays.FreshNumbersPass | rust/udp.rs:165-171 | in every run a legal, rightly tagged datagram passes exactly when its number is not zero, was not accepted before under the session, and is above, or less than 64 below, every number that was |
| Keys.TakenExactly | rust/udp.rs:113-177 | a datagram is taken exactly when it is of legal size, names the socket of a room member with a session for its present stay, was written under that session's key with a legal kind, target and payload, is fresh, and the incoming window has room |
| Keys.OpenedChannelServes | rust/server.rs:886-899 | in every run, once the last word of a socket is to open its channel under a key while its account is in a room, its session has that key and that membership version as long as the socket is there and says no more |
| Keys.ClosedChannelIsSilent | rust/server.rs:900-904 | in every run, once the last word of a socket is to close its channel, no datagram that names it is taken and none is sent to it until a request of the socket opens it |
| Keys.ClosedKeyIsSuppliedAgain | rust/server.rs:900-904 | and a key that was closed serves again only after a later request supplied it again |
| Presence.RunOnward | rust/server.rs:274-562 | in every run closed sockets stay closed, a socket keeps its account, and membership versions only grow, with a new one for each change of room |
| Presence.OneStay | rust/server.rs:472-474 | the same version at two times means one uninterrupted stay in one room on one socket |
| Provenance.DataProvenance | rust/udp.rs:139-241 | every data packet sent in any run goes to another member of the sender's room, under the key of a session that a request of that member's socket opened when it was already in its present stay in that room, which it has not left since; at an address that answered its own challenge in time under that key and was heard from within the endpoint lifetime |
| Provenance.DataIsCopied | rust/udp.rs:203-243 | a data packet goes out as one copy for each addressed and reachable member, in member order, if it is genuine, within quota and from the sender's endpoint, and else not at all |
| Reaching.DataReachesMembers | rust/udp.rs:203-241 | a taken data packet from its sender's fresh endpoint goes to every addressed member with an open socket, a session for its present stay and a fresh endpoint, if its connection may send, under its key with its next number; from elsewhere nothing is sent |
| Reaching.ProbeIsChallenged | rust/udp.rs:179-188 | a taken probe is answered at its source with the challenge, if the connection may send, and with nothing else |
| Reaching.EchoIsConfirmed | rust/udp.rs:189-202 | a taken echo that answers the challenge in time is confirmed at its source and binds it; any other is not answered and binds nothing |
| Reaching.GenuineMovesWindow | rust/udp.rs:172-177 | a genuine datagram moves the incoming window of its connection by one event and is taken exactly when that had room |
| Channel.EndpointOrigin | rust/udp.rs:179-209 | a bound endpoint was probed from, echoed the challenge in time, and was last heard from when the binding says, all under one key |
| Channel.SessionOrigin | rust/server.rs:886-899 | every session goes back to a command that ran a request of its socket to open one under its very key, while the account was in a room with the version that the session carries; the socket has held that key ever since |
| Handling.HandedHolds | rust/server.rs:642-703 | in every run each frame that reaches the handlers, at once or from the queue, runs on a socket in service in a state that satisfies the invariants |
| Channel.OneCopyEach | rust/udp.rs:211-241 | each recipient gets at most one copy, the same whoever was served before |
| Outcomes.HandshakeBinds | rust/udp.rs:179-202 | a probe answered in time from the same source binds that source and uses the challenge up |
| Erasure.BadDatagramsLeaveNoTrace | rust/udp.rs:113-177 | leaving out every malformed, wrongly tagged or replayed datagram gives the same packets and the same final state |
| Erasure.CleanedIsLegal | rust/udp.rs:113-177 | what is left is a possible run |
| Rates.Limiter.Admit | rust/udp.rs:41-57 | the limiter object moves as the rule says |
| Rates.Bound | rust/udp.rs:46-56 | a fixed-window limiter lets at most `limit * (ceil(span / width) + 1)` events through in any stretch of length `span` |
| Refusals.RefusedExactly | rust/udp.rs:46-56 | a limiter refuses an event exactly when events let through in its window, less than a second old, reached the limit |
| Limits.LimitsHold | rust/udp.rs:174-237 | that bound, in every run, for authenticated datagrams in, datagrams out and WebSocket messages of a connection, across key rotation |
| Limits.PacketsAreCounted | rust/udp.rs:178-241 | every packet sent counts for its connection, and no connection gets two for one datagram |
| Meters.ReceiveMeters | rust/server.rs:579-593 | a message moves only its own connection's message counter, and one over the limit closes the connection |
| Meters.DatagramLimits | rust/udp.rs:172-243 | every datagram moves the limits of every connection as fixed windows move |
| Admission.AttemptsBound | rust/admission.rs:15-34 | no address gets more than the bound of connections per minute in any stretch |
| Admission.AdmittedWithinLimits | rust/admission.rs:15-41 | in every history an attempt is admitted if its address made fewer than the allowed attempts and fewer than four times as many addresses as connections tried in the minute before, and fewer permits than allowed are open, in total and for its address |
| Admission.RunValid | rust/admission.rs:15-60 | the book counts the open permits of each address exactly, within the limits per address and in total, and tracks at most four times as many addresses as connections |
| Admission.DropUndoesAcquire | rust/admission.rs:49-60 | dropping a permit undoes having got it |
| Admission.Admission.Acquire | rust/admission.rs:15-41 | the object after an attempt, and its verdict, as the rule says |
| Admission.Admission.Drop | rust/admission.rs:49-60 | the object after a permit is dropped |
| Queue.DrainSplits | rust/server.rs:1315-1344 | a sweep releases exactly the due head of the queue, in order, and leaves the rest |
| QueueRuns.ReleasedInOrderOnce | rust/server.rs:642-681 | in every run frames are released in the order of arrival, each at most once |
| QueueRuns.DelayedFramesAreFenced | rust/server.rs:1328-1337 | a delayed frame runs only for the account and socket that sent it, and a room-scoped one only within one stay in one room |
| Frames.ReleasedFrameRunsExactly | rust/server.rs:1323-1343 | in every run a frame whose turn comes is handed to the handlers exactly when its socket still serves its account, is not closing, and the frame is about no room or the account is in the stay in which the frame arrived |
| Frames.NoFrameIsLost | rust/server.rs:642-681 | in every run a queued frame still waits, was released, or its socket is gone or no longer serves its account |
| Frames.DueFramesLeave | rust/server.rs:1315-1322 | a sweep releases a waiting frame exactly when its time has come |
| QueueBudget.RunBudgeted | rust/server.rs:642-669 | in every run a connection's counters cover what it has queued, exactly for a current one, within the limits |
| QueueBudget.ReleaseBudgeted | rust/server.rs:1323-1327 | releasing a frame never drives a counter below zero |
| Outbox.StepValid | rust/server.rs:145-174 | every atomic step of either thread keeps the counter exact, and no subtraction saturates |
| Outbox.CounterIsExact | rust/main.rs:210-221 | under every interleaving the counter is the cost of queued frames, the frame in flight and the reservation in progress, and what is queued stays within the limit |
| Outbox.WrittenInOrder | rust/main.rs:210-221 | frames are taken in the order in which they were sent |
| Outbox.NothingAfterTheEnd | rust/server.rs:145-167 | after a Close or a termination nothing is enqueued |
| Jobs.MergeKeepsEventsDistinct | rust/store.rs:207-235 | after a commit the jobs of a room are for different events |
| Jobs.MergeKeepsQueued | rust/store.rs:209-213 | every unfinished unscheduled job survives unchanged |
| Jobs.MergeKeepsOthersExactly | rust/store.rs:214-232 | any other job survives exactly when its event and time are committed again and the event is not remembered, and then unchanged |
| Jobs.MergeInventsNothing | rust/store.rs:221-231 | any further job is fresh and for a committed notice |
| Jobs.TwoScheduledExactly | rust/store.rs:207-232 | a commit leaves two scheduled jobs exactly when it brings a scheduled and an immediate notice for different events, neither remembered nor waiting unscheduled, the immediate one renews an earlier scheduled job, and the scheduled one renews none that is unscheduled; it never leaves more |
| Jobs.TwoScheduledJobs | rust/store.rs:221-231 | and it does happen |
| Storage.Store.Commit | rust/store.rs:207-235 | the loops of the commit compute the merged job list, or nothing changes |
| ServerObject.Server.CommitSession | rust/server.rs:837-871 | jobs are written before the state changes; a failed write changes neither |
| Delivery.Pass.DeliverJob | rust/push.rs:128-262 | whatever commits interleave, an unscheduled job is removed exactly when every device seen has an earlier receipt or is handled, else it keeps old and new receipts and is retried half a minute later; other waiting jobs stay |
| Delivery.Pass.Deliver | rust/push.rs:109-263 | over a whole pass, with targets and sends that may differ from job to job, no waiting unscheduled job is lost or changed but in that way, and each due one had exactly the pushes sent that were owed |
| Delivery.PushesSkipReceipts | rust/push.rs:149-156 | devices with a receipt are not pushed to |
| Delivery.EachDeviceOnce | rust/push.rs:131-156 | for one job with distinct targets a pass pushes to no device twice |
| Pruning.EvictedIsShortestPrefix | rust/store.rs:236-270 | pruning removes the shortest prefix of the inactive files, unreadable first and then by age, that meets the quota, or all |
| Pruning.OldestGoFirst | rust/store.rs:236-270 | whatever pruning removes is inactive and older than every inactive file it keeps: unreadable before readable, then by last update, then by identifier |
| Storage.Store.Prune | rust/store.rs:236-270 | the loop removes exactly those files and their jobs and nothing else |
| Logs.Logger.constructor | rust/diagnostics.rs:243-277 | a restart keeps the newest segments within the budget and reopens none |
| Logs.Logger.MakeRoom | rust/diagnostics.rs:278-290 | only as many of the oldest segments go as the new record needs |
| Logs.Logger.Write | rust/diagnostics.rs:291-325 | the total stays exact and within the budget; what is retained is the newest part of everything accepted, this record included and none split; an oversize segment holds one record |
| Paging.GetRooms | rust/server.rs:913-948 | among the rooms still open or open to that player, the page is as `FillPage` says |
| Outcomes.ListedRoomsAdmit | rust/server.rs:913-919 | a room with room, not closed before its start, is listed to one who is not in it exactly if it would let that player in with its password |
| Paging.FillPage | rust/server.rs:920-942 | a page is the longest run of visible rooms after the cursor that fits, with the cursor to continue from |
| Paging.TooLargeExactly | rust/server.rs:935-938 | the error comes exactly when the next visible room does not fit alone |
| Paging.ScanIsSound | rust/server.rs:913-948 | while rooms come and go, a scan returns rooms in order, none twice, and every room visible throughout up to its cursor |
| Paging.FinishedScanIsComplete | rust/server.rs:913-948 | a finished scan returned every room that was visible throughout |
| Paging.FixedScanIsTheList | rust/server.rs:913-948 | on a fixed set of rooms the pages concatenate to the sorted list |
| Paging.Scan | rust/server.rs:913-948 | following the cursor on a fixed set ends, with every page within bounds, if each room fits alone |

## Left out

- History.RunEvolves: needs successful saves; `Lasting.WorldGoesOn` does not.
- Rules.Saved: takes the header to be readable; `Files.FileRoundTrip` says when it is.
- Rules.KeepAll: the order of the empty rooms and the storage outcome of each save are inputs.
- Restart.RestartKeepsWorlds: a process that is killed instead of stopped loses what is only in memory; for single files see `Files.CrashLeavesWholeFile`.
- Quota.Evicted: a room file that is removed while removing its job file fails is not distinguished.
- Relay.Lawful: identifiers drawn for rooms and guests are new, socket numbers are not reused, the clock does not run back, and no login displaces a record (`Rules.Displacing`); one clock reading serves a whole command.
- Rules.Receive: JSON parsing and validation, and the lengths that decide what fits, are inputs; so are storage outcomes, which a queued frame carries until it runs.
- Rules.Sweep: heartbeats, authentication and idle timeouts only close sockets and are the command `Closed`.
- Rules.Notified: sending legacy pushes and their rate limit are an input.
- Delivery.Pass.Deliver: removing a device whose push came back invalid, text and translations are not modelled; job files are written successfully; rooms with due jobs are not pruned during the pass.
- Outbox.CounterIsExact: the atomic operations of both threads are taken to be sequentially consistent.
- Admission.AttemptsBound: the attempt counter does not saturate, as its limit is below the largest machine word.
- Logs.Logger.Write: failures of the file system.
- Paging.GetRooms: the length of each room's JSON is given with the room; the frame around the list is counted byte by byte.
- Generation, revision and version counters are unbounded; the source's are 64 bits wide.
- Names, devices, round-trip times, chat, relayed messages and metadata texts: they decide nothing that is modelled.
- Mixed-case spellings of other identifiers than that of a login: a re-cased room identifier names no room, and a commit whose upload identifier is spelled otherwise than it was begun is refused.
- Rules.Closing: a socket starts to close between commands; in the source an overflow of its outgoing buffer can make it close within one, so that later frames of that socket in the same sweep are dropped.
- Handshakes, HTTP, configuration, moderation tickets, telemetry, redaction, push requests and token fetching: input and output plumbing.
