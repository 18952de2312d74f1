# fsnotify over a shared file system: a verified model

The repository lets containers watch directories of a shared file system. A
client library (Go in `jfsnotify/`, Rust in `rust-jfs/`) sends WATCH and UNWATCH
messages to a proxy (`k8s/pkg/multicast`, `k8s/cmd/fsnotify-proxy`). The proxy
maps pod paths to node paths, keeps one FSWatcher object per connection in the
API server, and fans node events out to all connected clients, renamed to what
each client knows them by. A daemon on the node (`k8s/cmd/fsnotify-daemon`)
turns the FSWatcher objects into watches and publishes the events.

The model follows that code branch by branch: byte strings are sequences of
bytes, the API server is a map, the wire is a sequence, redis is whoever calls
`Deliver`. The concurrent parts are step machines in which each lock operation,
channel operation and close is a step, and runs are arbitrary interleavings.
The objects and loops of the code are classes and methods proved against the
functions of those machines.

| file | what it models |
|---|---|
| `Prelude`, `Text` | shared types; Go's Index, Replace, Split and Join over bytes |
| `Wire`, `Stream`, `WatchMessage` | messages, event records, length-prefixed streams, 255-byte slots |
| `Mapping`, `LastWatch` | pod paths to node paths, the path map of a connection, and which watched path a node path is stored with |
| `Debounce` | pending WRITEs, timers and generations of one watcher |
| `ProxyClient`, `ProxyClientInv`, `ProxyOrder` | the threads of one connected client, and what every step of them keeps |
| `ProxySystem`, `ProxyDelivery`, `ProxyTheorems`, `ProxyArming`, `ProxyWrites`, `ProxyEnds`, `ProxyDeadlock`, `ProxyIsolation` | all clients with the fan-out and the server mutex; safety over all runs, from what is delivered to what is written |
| `ProxyServer`, `ProxyRefinement` | the same code as objects, one call at a time, and the proof that a call is a run of the machine |
| `ProxyHandler` | the reader's handler inside the running proxy: its map, and the names it gives |
| `Registry`, `RegistryLimits`, `ProxyApp` | the FSWatcher objects over many connections, exactly when their promises fail; the message handler |
| `Reconnect`, `ReconnectOrder`, `ReconnectLimits`, `Clients` | the Rust client across lost connections, exactly when it fails; both client libraries as objects |
| `Naming` | end to end, from a watched path to the name a client reads |
| `ChannelId`, `DaemonV1` | the first daemon: channel names and the incremental watch diff |

What the proofs found out about the code, each with its exact condition:

- A host path that ends in `/` makes the proxy store the pod path without the
  slash between mount and remainder (`Mapping.StoredPathIsWatchedPath`). The
  prefix check does not look for a `/` after the mount
  (`Mapping.ImageIgnoresBoundary`), so two paths share a node path exactly when
  they differ in that one slash (`Mapping.SameNodePathExactly`).
- The generation of a debounce entry restarts at 1, so a callback that is held up
  past a flush can flush a later entry at once (`Debounce.EarlyFlushExactly`,
  `Debounce.EarlyFlushHappens`). Nothing is lost, and what is flushed is still the
  latest snapshot. The comment on `gen` says stale callbacks are ignored; the
  model follows the code.
- An UNWATCH of the last path returns an error and leaves the old paths stored
  (`Registry.AgreesUnlessEmptied`).
- Channels share an FSWatcher exactly when namespaces are equal and the rests are
  equal up to hyphens for slashes (`RegistryLimits.NameSharedExactly`); then each
  agrees with the object only while both maps have the same keys
  (`RegistryLimits.SharedObjectExactly`).
- A delete left over from the last connection takes the object of the new one
  (`RegistryLimits.DeleteDecides`, `RegistryLimits.StaleDeleteWins`); a teardown
  can leave the object behind exactly while the handler may still create it, from
  the pod lookup on (`RegistryLimits.TeardownLeaksExactly`), and so can a message
  read after it (`RegistryLimits.LateMessageLeaksExactly`).
- The Rust client queues its replay before the writer starts, so a replay gets
  through exactly when there is room at once (`ReconnectLimits.ReplayLeavesExactly`,
  `ReconnectLimits.QueueFillsUp`). As long as the proxy refuses no message, it can
  end up watching something else than the client exactly when a call begins while
  another caller is in the middle of the opposite call on that path
  (`ReconnectLimits.LastBeginExactly`). A message refused because the pod lookup
  failed costs what no later message makes good, until the next reconnect
  (`Reconnect.RefusalCostsExactly`).
- The first daemon cannot find the way back from an FSWatcher name to the channel
  when "container-" occurs in the namespace or the pod name, as it does for the
  pods of a StatefulSet (`ChannelId.ChannelIdRoundTrip`); and a lister that is
  ahead of the queue loses a path that two new objects share
  (`DaemonV1.ListerAheadLosesWatch`).
- With the second daemon an event on a watched file has the file's directory for
  its Key, so it reaches only clients that watch the directory too
  (`Naming.WatchedFileNeedsParent`).
- `rust-jfs/docs/fsnotify-proxy.md:251-275` describes an older debounce, a delay
  that looks at the time of the last event; the code has resettable timers with
  generations, and the model follows the code.
- The documentation of the Go client's `Add` and `Remove` promises that a second
  `Add` is a no-op and that removing an unknown path is an error; the code
  appends again and returns nil (`Clients.Watcher`).

Conditions the theorems name, because the code needs them: slot strings have at
most 255 bytes and no NUL at either end; host paths are not empty; connection ids
are distinct; `Deliver` calls follow one another, as the redis subscription
makes them.

## Model

| member | source | states |
|---|---|---|
| `Wire.SlotRoundTrip` | jfsnotify/utils.go:91-93 | a string comes back out of a zeroed 255-byte slot exactly when it fits and neither starts nor ends with NUL |
| `Wire.MessageBytes` | jfsnotify/utils.go:62-104 | byte by byte: the type in 4 bytes, most significant first, the name from the start of its 255 and zeros behind it, the Op in 4, the Key in 255 |
| `Wire.MessageRoundTrip` | jfsnotify/utils.go:62-86 | UnpackMsg of PackageMsg gives the payload back, and the type modulo 2^32 |
| `Wire.TypeBytes` | jfsnotify/utils.go:14-55 | WATCH, UNWATCH, CLEAR and EVENT are types 1, 2, 3 and 6 on the wire |
| `Wire.EventRoundTrip` | jfsnotify/utils.go:88-134 | UnpackEvent of any non-empty batch of packed events, followed by any partial record, returns that batch exactly when every event is slot-valid |
| `Wire.DecodeIsStable` | jfsnotify/utils.go:106-134 | for every input of at least 514 bytes, decode, encode, decode equals decode |
| `Wire.DecodedIsValid` | jfsnotify/utils.go:125-127 | whatever the bytes, decoded events are slot-valid |
| `Wire.RustSlotRoundTrip` | rust-jfs/src/utils.rs:119-138 | the Rust decoder, trimming only the end, reads a slot back exactly when the string fits and does not end with NUL |
| `Wire.FillSlot` | jfsnotify/utils.go:91-92 | the zeroed buffer after the copy is the slot of the string |
| `Wire.PackEvent` | jfsnotify/utils.go:88-104 | the bytes appended are one record of the event |
| `Wire.UnpackEvent` | jfsnotify/utils.go:106-134 | the indexed loop decodes record by record, and fails exactly below 514 bytes |
| `Stream.FrameBytes` | rust-jfs/src/utils.rs:221-230 | a frame is the length of the message in 4 bytes, most significant first and not counting itself, and the message |
| `Stream.DecodeReceived` | rust-jfs/src/utils.rs:209-230 | from any part of a length-prefixed stream a reader decodes a prefix of the messages, from all of it all of them |
| `Stream.DeliveredExactly` | jfsnotify/ipc.go:48-74 | the messages are packed in order up to the first of type -2, or of type -1 that reports a reconnect |
| `Stream.IpcConn.Read` | jfsnotify/ipc.go:47-84 | a read returns the next bytes of the cached frame, or of the next message's frame, keeps the rest, and fails only when nothing is cached and the pipe has ended or broken |
| `Stream.ReadRun` | jfsnotify/ipc.go:47-84 | for any messages and any buffer sizes, zero included, the bytes read are a prefix of the length-prefixed encoding, and decoding them gives a prefix of the messages |
| `Text.ReplacesFirst` | k8s/cmd/fsnotify-proxy/app/helper.go:211 | strings.Replace with limit 1 replaces the first occurrence and nothing else; without one the text stays |
| `Text.ReplaceOpening` | k8s/cmd/fsnotify-proxy/app/helper.go:211 | strings.Replace with limit 1 replaces the pattern a text opens with |
| `Text.SplitJoin` | k8s/cmd/fsnotify-proxy/app/app.go:253-268 | splitting joined separator-free parts gives the parts back |
| `Text.JoinSplit` | k8s/cmd/fsnotify-daemon/app/v2/app.go:66-67 | joining what was split gives the text back |
| `WatchMessage.PayloadRoundTrip` | jfsnotify/backend_jfs.go:384-397 | the proxy parses the name and the paths that the client packed, in order, exactly when all are slot-valid |
| `WatchMessage.PayloadAt` | jfsnotify/backend_jfs.go:384-397 | the name is in the first 255 bytes, the path numbered i in the 255 bytes from 255*(i+1) on |
| `WatchMessage.LowerExactly` | k8s/cmd/fsnotify-proxy/app/app.go:110-112 | each capital becomes the small letter in its place of the alphabet, all else stays, and doing it twice changes no more |
| `WatchMessage.RequestRoundTrip` | k8s/cmd/fsnotify-proxy/app/app.go:78-136 | a packed WATCH or UNWATCH is read as that request with the same paths and the channel lower-cased |
| `WatchMessage.ClearRoundTrip` | rust-jfs/src/watcher.rs:175-195 | a packed CLEAR is read as a CLEAR of the same channel, lower-cased |
| `WatchMessage.Send` | jfsnotify/backend_jfs.go:384-402 | filling the buffer by a moving offset gives the name's slot followed by one slot per path |
| `WatchMessage.ParseMsg` | k8s/cmd/fsnotify-proxy/app/app.go:84-103 | the parse loop ends on every input, a short last slot included, and returns the trimmed slots |
| `WatchMessage.ReadRequest` | k8s/cmd/fsnotify-proxy/app/app.go:78-136 | unpacking and parsing by type reads the request |
| `Mapping.StoredPathIsWatchedPath` | k8s/cmd/fsnotify-proxy/app/app.go:178-193 | the pod path stored for a watched path is that path, unless its slash is dropped because the host path ends in one |
| `Mapping.ImageOfSubdirectory` | k8s/cmd/fsnotify-proxy/app/app.go:178-193 | on a `/` boundary under a plain host path the node path is host plus remainder |
| `Mapping.ImageIgnoresBoundary` | k8s/cmd/fsnotify-proxy/app/app.go:178-193 | a path that only starts with the letters of a mount gets the node path of the one that lies inside it |
| `Mapping.SameNodePathExactly` | k8s/cmd/fsnotify-proxy/app/app.go:178-193 | two different paths under any mount share a node path exactly when they differ in one slash after the mount |
| `Mapping.NoCollisionExactly` | k8s/cmd/fsnotify-proxy/app/app.go:178-193 | for one mount, a set of paths is free of collisions exactly when it holds no such pair |
| `Mapping.PutMountsKeys` | k8s/cmd/fsnotify-proxy/app/app.go:166-208 | one message adds, or removes, exactly the images of its paths under all mounts |
| `Mapping.EntriesExplained` | k8s/cmd/fsnotify-proxy/app/app.go:158-208 | after any history each entry is the image, with the pod path, of a path watched and not unwatched since |
| `Mapping.EntriesAreWatchedPaths` | k8s/cmd/fsnotify-proxy/app/app.go:158-208 | with host paths that do not end in `/` each entry maps a node path to a watched path it is the image of |
| `Mapping.KeysOfWatched` | k8s/cmd/fsnotify-proxy/app/app.go:158-208 | when images of distinct paths do not collide, the keys are exactly the images of the paths watched now |
| `Mapping.CollisionLosesPath` | k8s/cmd/fsnotify-proxy/app/app.go:194-200 | two colliding paths: unwatching one takes the node path away from the other |
| `Mapping.MappingExact` | k8s/cmd/fsnotify-proxy/app/app.go:158-208 | the key set is exact after every history over a set of paths if and only if no two of them collide |
| `Mapping.BuildVolumeMap` | k8s/cmd/fsnotify-proxy/app/app.go:158-164 | the loop keeps, per volume name, the last host path of a directory volume |
| `Mapping.VolumeMapExactly` | k8s/cmd/fsnotify-proxy/app/app.go:158-164 | a volume name has the host path of the last volume of that name that is a directory, made on demand or not, and none without one |
| `Mapping.BindsExactly` | k8s/cmd/fsnotify-proxy/app/app.go:158-177 | from the pod alone: the binds used for a container name are the mounts, in containers of that name, of volumes that are directories, with that host path, all of them, in the order of containers and mounts |
| `Debounce.NextKeepsInv` | k8s/cmd/fsnotify-proxy/app/helper.go:116-189 | arm, fire, flush, close and time keep every pending entry served by a callback of its generation, every entry's timer its newest, and every armed event accounted for |
| `Debounce.NoWriteIsLost` | k8s/cmd/fsnotify-proxy/app/helper.go:116-189 | in every run a pending entry belongs to an open watcher and has a scheduled or started callback carrying its generation |
| `Debounce.FlushIsLatest` | k8s/cmd/fsnotify-proxy/app/helper.go:149-165 | whichever callback flushes, it hands on the event armed last for that name, not flushed before |
| `Debounce.WriteConservation` | k8s/cmd/fsnotify-proxy/app/helper.go:117-189 | per name, accepted arms = superseded + flushed + cancelled by Close + pending |
| `Debounce.OneTimerPerEntry` | k8s/cmd/fsnotify-proxy/app/helper.go:127-137 | in every run, of all timers made for an entry only the newest is still to fire: each arm stops the one before |
| `Debounce.CloseStopsExactly` | k8s/cmd/fsnotify-proxy/app/helper.go:167-181 | Close stops the timers of all pending writes and no others; a timer still to fire afterwards belongs to an entry that was flushed |
| `Debounce.EarlyFlushExactly` | k8s/cmd/fsnotify-proxy/app/helper.go:126-152 | a pending WRITE can be flushed inside its quiet period exactly when a started callback of another timer carries its generation |
| `Debounce.StaleMatchOrigin` | k8s/cmd/fsnotify-proxy/app/helper.go:126-136 | such a callback was made for an earlier entry of the name, or 2^64 arms ago |
| `Debounce.QuietPeriod` | k8s/cmd/fsnotify-proxy/app/helper.go:117-165 | once callbacks of earlier entries have run, only the newest arm's callback flushes, at least writeDebounce after the last WRITE |
| `Debounce.EarlyFlushHappens` | k8s/cmd/fsnotify-proxy/app/helper.go:126-152 | a run in which a WRITE is flushed at the very moment it is armed |
| `ProxyClientInv.ThreadMoves` | k8s/pkg/multicast/tcpserver.go:67-155 | any step of any thread changes only what its place in the code may change |
| `ProxyOrder.StepKeepsInv` | k8s/pkg/multicast/tcpserver.go:67-155 | every step of a client (reader, writer, fan-out, callback, clock) keeps its whole invariant: locks, teardown stages, queue, debounce, order |
| `ProxySystem.ClientMoves` | k8s/pkg/multicast/server.go:86-131 | seen from one client, a step of the whole proxy is a step of that client or none |
| `ProxySystem.RunKeepsInv` | k8s/pkg/multicast/server.go:41-131 | every run of any number of clients keeps each client's invariant, the fan-out's place and the holders of the server mutex |
| `ProxyDelivery.CollectReachesAll` | k8s/pkg/multicast/server.go:100-116 | in every reachable state, collecting asks every registered client for a visit with the whole payload, whatever its queue, and nobody else |
| `ProxyDelivery.DeliveredIsAll` | k8s/pkg/multicast/server.go:100-131 | in every run what was delivered to a client is the events of all payloads whose Deliver collected while it was in watchClients, in order |
| `ProxyTheorems.OrderedDelivery` | k8s/pkg/multicast/server.go:100-131 | WRITEs aside, what is on the wire is a prefix of the translations, with the map in force at each, of a prefix of the events of all payloads collected while the client was registered |
| `ProxyTheorems.FixedMapDelivery` | k8s/cmd/fsnotify-proxy/app/helper.go:61-114 | for a fixed map, what is on the wire is a prefix of all mapped events of those payloads, in order and translated, with no gap when the queue overflows in mid-batch |
| `ProxyTheorems.NothingIsSkipped` | k8s/cmd/fsnotify-proxy/app/helper.go:100-113 | while the connection is up and the fan-out elsewhere, every mapped event of those payloads, WRITEs aside, has been queued |
| `ProxyTheorems.QueueConservation` | k8s/pkg/multicast/tcpserver.go:105-155 | accepted frames = written, then at most one held or failed, then queued, in order; never more than 255 queued |
| `ProxyTheorems.WrittenOnlyWhileOpen` | k8s/pkg/multicast/tcpserver.go:105-127 | a step writes at most the frame the writer holds, and nothing once the connection is closed or a write has failed |
| `ProxyTheorems.Lifecycle` | k8s/pkg/multicast/server.go:52-97 | a published client has fconn and Helper; an unpublished one has an empty queue and is not being shut down; Remove runs at most once; a finished teardown has left the map, closed the watcher with nothing pending, and run Remove once |
| `ProxyTheorems.TeardownIsFinal` | k8s/pkg/multicast/tcpserver.go:121-127 | after a finished teardown the client is never registered again and Remove never runs again, whatever follows |
| `ProxyTheorems.PendingIsServed` | k8s/cmd/fsnotify-proxy/app/helper.go:116-165 | among all the threads, a pending WRITE's timer is scheduled or its callback is a thread that has yet to take the mutex |
| `ProxyTheorems.FlushSendsLatest` | k8s/cmd/fsnotify-proxy/app/helper.go:149-165 | a callback in its critical section takes the event armed last under its name and goes on to send it, or ends and changes nothing pending |
| `ProxyArming.WritesAreArmed` | k8s/cmd/fsnotify-proxy/app/helper.go:99-146 | in every run the WRITEs armed under a name are delivered ones in order; until the teardown has begun they are all of those delivered, in order, but for the ones still ahead of the fan-out in its visit |
| `ProxyArming.WritesAreConserved` | k8s/cmd/fsnotify-proxy/app/helper.go:99-165 | per name, while the client is up and the fan-out elsewhere: delivered WRITEs = replaced by a later one + pending + queued + unmapped + refused + in the hands of a callback |
| `ProxyWrites.RunsKeepLog` | k8s/cmd/fsnotify-proxy/app/helper.go:149-165 | in every run each flush, followed through translation, refusal and queueing, is where its callback is |
| `ProxyWrites.WriteFramesWereFlushed` | k8s/cmd/fsnotify-proxy/app/helper.go:149-165 | in every run the WRITE frames accepted are the translations, with the map then in force, of flushed events, one for each callback, in order; those on the wire are a prefix |
| `ProxyWrites.FlushesAreConserved` | k8s/cmd/fsnotify-proxy/app/helper.go:76-97 | per name, flushed = accepted + unmapped + refused + in the hands of a callback |
| `ProxyEnds.EndedMeansDown` | k8s/pkg/multicast/tcpserver.go:93-127 | in every run the reader has ended only when the teardown is finished; the writer only when it has begun, and after a failed write only when it is finished |
| `ProxyEnds.RefusedMeansDown` | k8s/pkg/multicast/tcpserver.go:136-155 | in every run a flushed WRITE is refused only by a client whose teardown has begun or whose callback is on its way to begin it |
| `ProxyEnds.FailuresGoDown` | k8s/pkg/multicast/tcpserver.go:93-155 | from every state, a failed read, a failed write and a full queue lead into shutdown; the frame of the failed write is lost, the queue is kept; a thread that is refused stops, with the rest of its batch |
| `ProxyDeadlock.WaitsForMutex` | k8s/cmd/fsnotify-proxy/app/helper.go:61-203 | from every state, a thread that wants the watcher mutex goes on exactly when it can have it, into its critical section and holding it; nothing else changes |
| `ProxyDeadlock.WaitsAreAcyclic` | k8s/pkg/multicast/tcpserver.go:121-127 | in every reachable state waiting for once, a watcher mutex or the server mutex leads to a strictly lower rank, so no cycle exists |
| `ProxyDeadlock.EntersShutdownUnlocked` | k8s/cmd/fsnotify-proxy/app/helper.go:148-165 | a thread entering shutdown, waiting at it, or between its critical sections holds no watcher mutex and no server mutex |
| `ProxyDeadlock.BlockedMeansWaiting` | k8s/pkg/multicast/server.go:86-131 | in every reachable state a thread is idle, can step, or waits for an agent |
| `ProxyDeadlock.FanOutGoesOn` | k8s/pkg/multicast/server.go:100-131 | in every reachable state the fan-out takes the next payload, or waits for the server mutex only while that is held for writing, or can collect, start the next visit, leave one that is over, or return; or its current visit is under way |
| `ProxyDeadlock.AwaitedCanStep` | k8s/pkg/multicast/server.go:86-131 | an awaited agent that waits for nothing can take its next step |
| `ProxyIsolation.StepProjects` | k8s/pkg/multicast/server.go:100-131 | a step of the proxy, projected to one client, is a step of the proxy with that client alone, or nothing |
| `ProxyIsolation.RunProjects` | k8s/pkg/multicast/server.go:100-131 | any run over n clients, projected to one, is a run of that client alone, with the same outcome |
| `ProxyIsolation.OthersDoNotMatter` | k8s/pkg/multicast/tcpserver.go:136-155 | two runs that agree on a client's own steps leave it in the same state, whatever overflowed, closed or failed elsewhere and in whatever map order |
| `ProxyServer.BatchAllOrDropped` | k8s/cmd/fsnotify-proxy/app/helper.go:100-113 | one batch queues all its mapped non-WRITE frames exactly when they fit; otherwise the queue is filled to 255 without a gap and the client torn down |
| `ProxyServer.StopsHere` | k8s/cmd/fsnotify-proxy/app/helper.go:105-109 | after the first error the rest of a batch changes nothing |
| `ProxyServer.FlushedExactly` | k8s/cmd/fsnotify-proxy/app/helper.go:149-165 | from every healthy state with the debounce invariant: a callback whose entry is gone changes nothing; otherwise the event armed last is queued byte by byte with its Key replaced by what the map has for it, left out if unmapped, and ends the client if 255 frames are queued |
| `ProxyServer.StopPending` | k8s/cmd/fsnotify-proxy/app/helper.go:175-180 | the loop over the pending map, in any order, stops exactly the timers of pending entries |
| `ProxyServer.Watcher.constructor` | k8s/cmd/fsnotify-proxy/app/helper.go:53-59 | a new watcher is open, with empty maps |
| `ProxyServer.Watcher.ArmWriteDebounce` | k8s/cmd/fsnotify-proxy/app/helper.go:117-146 | the object's new state is Arm of the old one |
| `ProxyServer.Watcher.TakeDue` | k8s/cmd/fsnotify-proxy/app/helper.go:149-158 | the critical section of a callback: the state and the event of RunCallback |
| `ProxyServer.Watcher.FlushWriteDebounce` | k8s/cmd/fsnotify-proxy/app/helper.go:149-165 | callback and send together, registration included |
| `ProxyServer.Watcher.Close` | k8s/cmd/fsnotify-proxy/app/helper.go:167-189 | the new state is Close of the old one, and Remove runs on the first call only |
| `ProxyServer.Watcher.TranslateEventNameInCluster` | k8s/cmd/fsnotify-proxy/app/helper.go:202-214 | a mapped key gives the packed frame of the renamed event, any other nothing |
| `ProxyServer.Watcher.SendEvent` | k8s/cmd/fsnotify-proxy/app/helper.go:76-97 | translate and queue, as one event of a batch |
| `ProxyServer.Watcher.WriteEvents` | k8s/cmd/fsnotify-proxy/app/helper.go:100-113 | the loop leaves client and registration as Batch says, stopping at the first error |
| `ProxyServer.Watcher.WriteMsg` | k8s/cmd/fsnotify-proxy/app/helper.go:61-114 | closed: nothing; malformed: an error; otherwise the batch |
| `ProxyServer.Client.SendBytes` | k8s/pkg/multicast/tcpserver.go:136-155 | refuses when done, queues when there is room, otherwise tears the client down |
| `ProxyServer.Client.Shutdown` | k8s/pkg/multicast/tcpserver.go:121-127 | once only: done, closed, watcher closed, gone from the map |
| `ProxyServer.Server.OnNewClient` | k8s/pkg/multicast/server.go:52-64 | the client is registered under its id with a fresh helper |
| `ProxyServer.Server.RemoveChannel` | k8s/pkg/multicast/server.go:86-97 | the watcher is closed and only this client leaves the map |
| `ProxyServer.Server.Collect` | k8s/pkg/multicast/server.go:105-116 | the closures are those of the registered clients that have a helper |
| `ProxyServer.Server.Deliver` | k8s/pkg/multicast/server.go:100-131 | every client ends as if it had got the payload alone, in any order; exactly those that went down are no longer registered |
| `ProxyRefinement.ShutdownRuns` | k8s/pkg/multicast/tcpserver.go:121-127 | nine uninterrupted steps of any thread through shutdown leave the client as the object's Shutdown does |
| `ProxyRefinement.BatchCons` | k8s/cmd/fsnotify-proxy/app/helper.go:100-111 | the batch loop read from the front equals the batch loop read from the end |
| `ProxyRefinement.WriteMsgIsARun` | k8s/cmd/fsnotify-proxy/app/helper.go:61-114 | an uninterrupted visit of the fan-out thread ends, and leaves the client exactly as the object's WriteMsg does |
| `ProxyRefinement.FlushIsARun` | k8s/cmd/fsnotify-proxy/app/helper.go:149-165 | an uninterrupted callback thread ends, and leaves the client exactly as the object's flushWriteDebounce does |
| `Registry.RunKeepsInv` | k8s/cmd/fsnotify-proxy/app/app.go:71-246 | with one connection per object, no stale delete, no teardown while a handler may create its object and no WATCH or UNWATCH read after the teardown, every run keeps objects and connections apart, in agreement and owned |
| `Registry.RegistryAgreement` | k8s/cmd/fsnotify-proxy/app/app.go:210-245 | whenever the last handler of a connection has returned nil, the stored FSWatcher lists exactly the keys of podPathMap, whatever other connections did since |
| `Registry.NoOrphans` | k8s/cmd/fsnotify-proxy/app/app.go:52-64 | in such runs every stored object has a live connection, or a delete to come, or one the API server refused |
| `Registry.TornDownIsGone` | k8s/cmd/fsnotify-proxy/app/app.go:52-64 | after a teardown its delete runs whenever it runs; once it has succeeded the object is gone, and stays gone until a WATCH or UNWATCH for that channel is read |
| `Registry.DeletesSpareTheLiving` | k8s/cmd/fsnotify-proxy/app/app.go:52-64 | a delete that is still to run never is for an object that a live connection has named or is about to |
| `Registry.ObjectStays` | k8s/cmd/fsnotify-proxy/app/app.go:52-64 | as long as a connection in agreement does nothing itself, its object stays as it is, whatever handlers, teardowns and deletes others run |
| `Registry.AgreesUnlessEmptied` | k8s/cmd/fsnotify-proxy/app/app.go:210-245 | after a message that every API call lets through, object and map agree exactly when the map is not empty or nothing was stored |
| `Registry.ConnIsAsAsked` | k8s/cmd/fsnotify-proxy/app/app.go:128-218 | in every run, exclusive or not, a connection's path map is what its messages make of it, each under the binds of its pod and those with a failed lookup left out; its object has the name of the last message that came as far as reading the object, also if the read failed |
| `Registry.TeardownDeletesExactly` | k8s/cmd/fsnotify-proxy/app/app.go:52-64 | a teardown stores nothing and asks for the delete of just that object, if there is one |
| `Registry.WriteExactly` | k8s/cmd/fsnotify-proxy/app/app.go:219-245 | a handler's write takes effect exactly when the object is there, or not, as the handler found it |
| `Registry.ClearExactly` | k8s/cmd/fsnotify-proxy/app/app.go:114-127 | a CLEAR takes away its channel's object, if there is one, and nothing else; nothing at all when a call fails |
| `RegistryLimits.NameSharedExactly` | k8s/cmd/fsnotify-proxy/app/app.go:261-273 | two channels share an FSWatcher exactly when their namespaces are equal and their rests are equal up to hyphens for slashes |
| `RegistryLimits.ChannelSplits` | k8s/cmd/fsnotify-proxy/app/app.go:261-268 | every channel that getWatcher accepts is a namespace, a slash and a rest |
| `RegistryLimits.ChannelsShareName` | k8s/cmd/fsnotify-proxy/app/app.go:261-273 | a family of different channels that do |
| `RegistryLimits.SharedObjectExactly` | k8s/cmd/fsnotify-proxy/app/app.go:219-245 | from every state, when another connection's handler returns nil on the same object, a connection still agrees with it exactly when both maps have the same keys |
| `RegistryLimits.SharedNameLosesPaths` | k8s/cmd/fsnotify-proxy/app/app.go:219-245 | a run with a shared name in which both handlers return nil and the first connection's paths are gone |
| `RegistryLimits.DeleteDecides` | k8s/cmd/fsnotify-proxy/app/app.go:52-64 | from every state, a connection in agreement stays so whichever pending delete runs next exactly when none is for its object |
| `RegistryLimits.StaleDeleteWins` | k8s/cmd/fsnotify-proxy/app/app.go:52-64 | a run in which a delete left over from the last connection removes the object of the new one |
| `RegistryLimits.TeardownLeaksExactly` | k8s/cmd/fsnotify-proxy/app/app.go:128-245 | from every invariant state, after a teardown the connection's object can be there for good exactly when the handler is in the pod lookup of a message that can leave the map not empty, or about to read the object, or has not found it; or when the object was there before the connection named it |
| `RegistryLimits.LateMessageLeaksExactly` | k8s/cmd/fsnotify-proxy/app/app.go:128-245 | from every state, a message read after teardown and delete can bring the object back exactly when it can leave the map not empty, or the object is there |
| `RegistryLimits.MidHandlerTeardownLeaks` | k8s/cmd/fsnotify-proxy/app/app.go:219-236 | a run that leaves an object nobody owns |
| `ProxyApp.TargetOfChannel` | k8s/cmd/fsnotify-proxy/app/app.go:138-147 | the first three parts of a channel are the namespace, the pod and the container that the watcher is set to |
| `ProxyApp.HandlerIsSteps` | k8s/cmd/fsnotify-proxy/app/app.go:128-245 | the handler's nil outcome for one connection is the receive, read and write of the many-connection machine |
| `ProxyApp.App.TranslateKeys` | k8s/cmd/fsnotify-proxy/app/app.go:177-203 | the loop over the keys puts or deletes their images under one mount |
| `ProxyApp.App.TranslateContainers` | k8s/cmd/fsnotify-proxy/app/app.go:158-208 | the three nested loops apply one edit under all binds of the named container |
| `ProxyApp.App.CurrentPath` | k8s/cmd/fsnotify-proxy/app/app.go:210-213 | the list holds each key of the map once |
| `ProxyApp.App.ProcessClear` | k8s/cmd/fsnotify-proxy/app/app.go:114-127 | CLEAR deletes the channel's object if there is one; nil exactly when the channel parses and no needed call fails |
| `ProxyApp.App.StorePaths` | k8s/cmd/fsnotify-proxy/app/app.go:210-245 | an empty map is an error; otherwise the object is created or its paths replaced |
| `ProxyApp.App.ProcessEdit` | k8s/cmd/fsnotify-proxy/app/app.go:128-245 | nil exactly when the channel has three parts, the pod is found, the map is not empty and no call fails |
| `ProxyApp.App.ProcessWatcherMessage` | k8s/cmd/fsnotify-proxy/app/app.go:71-246 | for all bytes: on nil after WATCH or UNWATCH the object named by CRNamespace and CRName lists exactly the map's keys and no other object has changed; on an error none has |
| `Reconnect.StepKeepsInv` | rust-jfs/src/utils.rs:232-349 | every step keeps: the queue alone asks for nothing unwatched, and while a connection is intact all that is under way leads to the local set |
| `Reconnect.LosingTheHead` | rust-jfs/src/utils.rs:296-302 | a queue that has lost its first message asks for no more than before |
| `ReconnectOrder.QueueInOrder` | rust-jfs/src/utils.rs:281-307 | over any run, all messages put into the queue, the clear signal first, are those taken out, in that order, and those still queued; never more than 100 |
| `ReconnectOrder.WireInOrder` | rust-jfs/src/utils.rs:281-307 | on each connection what has arrived and what is on the wire is, in order, a prefix of what the writer has taken; all of it but the held message until the connection breaks |
| `Reconnect.ReplayKeepsInv` | rust-jfs/src/watcher.rs:198-217 | queuing the replay makes all earlier losses good |
| `Reconnect.Convergence` | rust-jfs/src/watcher.rs:198-322 | after any adds, removes, losses, refusals and reconnects, on a connection that is intact and has seen no refusal: handled, then wire, then held, then queued, then unsent messages give exactly the local set |
| `Reconnect.RefusalCostsExactly` | k8s/cmd/fsnotify-proxy/app/app.go:150-154 | a message refused there keeps that so exactly when, for each of its paths, the proxy has it as wanted already or a later message or call is about it |
| `Reconnect.OneCallerIsCalm` | rust-jfs/src/watcher.rs:287-322 | a single caller always meets the theorem's condition |
| `Reconnect.DrainedIsEqual` | rust-jfs/src/watcher.rs:198-322 | when everything has drained and nothing was refused on the connection, the proxy's set equals the local set |
| `Reconnect.DrainedMapIsExact` | k8s/cmd/fsnotify-proxy/app/app.go:194-200 | and then the keys of its path map are exactly the images of the local set |
| `ReconnectLimits.LastBeginExactly` | rust-jfs/src/watcher.rs:287-322 | after any calm run, a call can make everything drain to different sets, with nothing refused, exactly when it begins against an unfinished opposite call on its path and the queue can still drain |
| `ReconnectLimits.CrossedDiverge` | rust-jfs/src/watcher.rs:287-322 | from every such state there is an order of finishing the calls that does |
| `ReconnectLimits.CrossedCallersDiverge` | rust-jfs/src/watcher.rs:287-322 | a run from the start, without any lost message, that drains to different sets |
| `ReconnectLimits.ReplayLeavesExactly` | rust-jfs/src/utils.rs:249 | from every state, a replay ever gets through exactly when there is room in the queue at once |
| `ReconnectLimits.QueueFillsUp` | rust-jfs/src/watcher.rs:97 | a run that reaches a replay with the queue full |
| `Clients.PackedIsAsked` | rust-jfs/src/watcher.rs:220-255 | a packed message is read at the proxy as WATCH or UNWATCH of its channel, lower-cased, and its paths, all as they fit their slots |
| `Clients.PackedEffect` | rust-jfs/src/watcher.rs:220-255 | so it does at the proxy what was asked, to the paths as they fit their slots |
| `Clients.CarriedIntact` | rust-jfs/src/watcher.rs:239-244 | paths arrive as they are exactly when all are slot-valid |
| `Clients.ChannelArrives` | rust-jfs/src/watcher.rs:100-104 | the proxy takes a channel that fits its slot apart into the client's namespace, pod, container and name, each lower-cased |
| `Clients.JFSWatcher.constructor` | rust-jfs/src/watcher.rs:91-128 | a new watcher watches nothing and has queued, first, the CLEAR of its own channel |
| `Clients.JFSWatcher.WithConfig` | rust-jfs/src/watcher.rs:91-113 | a name with a slash is refused, any other gives such a watcher |
| `Clients.JFSWatcher.SendWatchMessage` | rust-jfs/src/watcher.rs:220-255 | one message is queued exactly when there is room, and is read at the proxy as WATCH or UNWATCH of the watcher's own channel with exactly these paths |
| `Clients.JFSWatcher.AddWith` | rust-jfs/src/watcher.rs:287-303 | the path is in the set, and the WATCH of it on the own channel is queued if there is room |
| `Clients.JFSWatcher.Remove` | rust-jfs/src/watcher.rs:306-322 | the path is out of the set, and the UNWATCH of it on the own channel is queued if there is room |
| `Clients.JFSWatcher.ResendWatches` | rust-jfs/src/watcher.rs:198-217 | one WATCH of exactly the local set on the own channel, or nothing for an empty set |
| `Clients.Watcher.AddWith` | jfsnotify/backend_jfs.go:463-475 | the message is read at the proxy as WATCH of the path on the own channel; what has been sent still leads to what is listed; a second add appends again |
| `Clients.Watcher.Remove` | jfsnotify/backend_jfs.go:492-511 | the message is read as UNWATCH of the path on the own channel; every copy of the name is dropped, the others keep their order, and what has been sent leads to what is listed |
| `Naming.KeyOfEntry` | k8s/cmd/fsnotify-daemon/app/v2/app.go:66-72 | the Key of an entry of a directory is that directory |
| `Naming.KeyOfName` | k8s/cmd/fsnotify-daemon/app/v2/app.go:66-72 | every name with a slash is its Key, a slash and a slash-free rest; any other has the empty Key |
| `Naming.WatchedFileNeedsParent` | k8s/cmd/fsnotify-daemon/app/v2/app.go:66-72 | an event on a watched file passes only if its directory is mapped |
| `LastWatch.LastWatchWins` | k8s/cmd/fsnotify-proxy/app/app.go:166-208 | over any messages with any number of paths, the path watched last for a node path, in the order of messages, mounts and keys, is the one stored |
| `LastWatch.MappedExactly` | k8s/cmd/fsnotify-proxy/app/app.go:166-208 | a node path is mapped exactly when the last message about it is a WATCH |
| `Naming.EndToEnd` | k8s/cmd/fsnotify-proxy/app/helper.go:202-214 | an event on p/b, with k watched last for p by any message and no slash lost, gets Key p, becomes k/b, and is decoded by the client with exactly that name |
| `Naming.ClientReads` | jfsnotify/utils.go:106-134 | from any part of the byte stream a client decodes a prefix of what was written, cut to its slots; WRITEs aside, a prefix of the translated deliveries |
| `Naming.SettledIntact` | jfsnotify/utils.go:88-134 | events are not changed by their records exactly when they are slot-valid |
| `ProxyHandler.RunningMap` | k8s/cmd/fsnotify-proxy/app/app.go:166-208 | in every run of the proxy in which a client's reader has installed the handler's maps, the map in force is that of the messages so far |
| `ProxyHandler.RunningTranslation` | k8s/cmd/fsnotify-proxy/app/helper.go:202-214 | then any thread translates an event on p/b to the entry b of the path watched last for p |
| `ProxyHandler.HandlerIsARun` | k8s/cmd/fsnotify-proxy/app/app.go:167-207 | the handler, mount by mount under the mutex, is a run of the reader that applies the message |
| `ChannelId.NameOfChannel` | k8s/cmd/fsnotify-proxy/app/app.go:261-268 | the FSWatcher of ns/pod/container/name is pod-container-name in ns |
| `ChannelId.ChannelIdRoundTrip` | k8s/cmd/fsnotify-daemon/app/app.go:144-149 | getChanId gives the channel back exactly when "container-" occurs in neither namespace nor pod name |
| `ChannelId.StatefulSetFails` | k8s/cmd/fsnotify-daemon/app/app.go:144-149 | it fails for pod "web-0" with container "web", and all like it |
| `DaemonV1.DiffIsUnion` | k8s/cmd/fsnotify-daemon/app/app.go:115-202 | with the lister in step, after any history of changes, disconnects and reconnects, a connected JuiceFS watches the union of all objects' paths |
| `DaemonV1.AddExactly` | k8s/cmd/fsnotify-daemon/app/app.go:151-170 | for every prior set, every lister and every object handed over, exactly when ADD ends in the union of the listed objects |
| `DaemonV1.DeleteExactly` | k8s/cmd/fsnotify-daemon/app/app.go:172-190 | the same for DELETE, also of an object that is listed again |
| `DaemonV1.UpdateExactly` | k8s/cmd/fsnotify-daemon/app/app.go:197-200 | the same for UPDATE, also of an object that has left the lister |
| `DaemonV1.ListerAheadLosesWatch` | k8s/cmd/fsnotify-daemon/app/app.go:125-142 | two ADDs of objects that share their paths, both listed already, watch nothing |
| `DaemonV1.App.WatchedPaths` | k8s/cmd/fsnotify-daemon/app/app.go:130-142 | the loop finds the paths of all other objects, and the object itself |
| `DaemonV1.App.Pack` | k8s/cmd/fsnotify-daemon/app/app.go:151-160 | the buffer holds the channel and, in order, the paths nobody else watches |
| `DaemonV1.App.Send` | k8s/cmd/fsnotify-daemon/app/app.go:151-190 | one message goes out while connected, for the object's own channel with the paths nobody else watches |
| `DaemonV1.App.SyncWatches` | k8s/cmd/fsnotify-daemon/app/app.go:115-202 | which messages go out, for which channel and paths: one for ADD and DELETE, UNWATCH of the old then WATCH of the listed object for UPDATE; they take JuiceFS from its set to the Diff; an UPDATE of an unlisted object panics after its first half; nothing when the lister fails |
| `DaemonV1.App.AddWatchers` | k8s/cmd/fsnotify-daemon/app/app.go:75-113 | CLEAR, then one WATCH in the name of the cluster of the paths of all objects; with any of CLEAR, the lister and WATCH failing, what goes out and what JuiceFS is left with |

## Left out

- Redis, TCP and TLS accept, the IPC handshake, signals and logging: input and output. `Deliver` calls, connections and byte streams are the inputs of the model.
- JSON coding of events: a library. A payload is a list of events, or malformed; a list with a `null` in it, which the loop in `WriteMsg` dereferences, is not modelled.
- The Kubernetes API: a map of objects, with a fault for each call. Pods are given; host paths in them are not empty and carry a type, as the API server sees to.
- The Go client's `start` and `clear` loops: each reconnect adds another sender on the same queue, so the queue has no one order. Both calls of its API are modelled.
- Concurrent calls of the Go client's `AddWith` and `Remove`: `Clients.Watcher` is proved for one caller.
- Clients.JFSWatcher.SendWatchMessage: a send that blocks on a full queue returns false here; `Reconnect` models the waiting, and `ReconnectLimits` when it never ends.
- Clients.JFSWatcher.AddWith: the same.
- Clients.JFSWatcher.Remove: the same.
- Clients.JFSWatcher.ResendWatches: the same.
- ProxyServer: objects one call at a time. What interleaves is in `ProxyClient` and `ProxySystem`, whose frames are named by their events; `ProxyRefinement` connects the two for a visit of the fan-out, a callback and a shutdown.
- ProxySystem.RunKeepsInv: each client has a clock of its own, which allows more runs than one shared clock.
- ProxyDeadlock.AwaitedCanStep: progress of the scheduler, and of a write that is parked in the kernel until the connection is closed, are not modelled; no liveness is claimed.
- Registry.RunKeepsInv: a WATCH or UNWATCH that is read, from what is left in the connection's buffer, after another thread has torn the connection down is excluded; `RegistryLimits.LateMessageLeaksExactly` says what it can do. The pod a channel names is whatever the API server returned for that message.
- Registry.NoOrphans: the same.
- Reconnect.Convergence: a connection on which the proxy has refused a message is excluded; `Reconnect.RefusalCostsExactly` says what the first refusal costs, and the next connection starts afresh.
- WatchMessage.RequestRoundTrip: lower-casing is that of ASCII letters, the only ones in Kubernetes names.
- WatchMessage.ClearRoundTrip: the same.
- Wire.RustSlotRoundTrip: bytes that are not valid UTF-8, which Rust decodes lossily, are not modelled.
- DaemonV1.DiffIsUnion: an action is handled while the lister shows exactly that change, and not at the same time as the reconnect callback, whose writes get through; what JuiceFS does with a message is assumed to be what the message says.
- The second daemon's `SyncWatches`: it only adds.
- Controller, work queue and generated clientset code: wrappers over libraries.
- `parseDialTarget`, backoff constants, printing of `Op`: finite or library code.
- `internelClose` of the Go client and the commented-out `close` of the Rust client: they end the process's use of the library and send nothing.
