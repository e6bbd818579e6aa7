# Trap core, modelled in Dafny

Trap is an iOS library that collects behavioural data from a device and
reports it to a server. It collects touches, gestures and Bluetooth
discoveries. This project models the core of that pipeline:

- a collector turns platform events into frames, and `save` puts each frame
  into the storage with a sequence number;
- the storage is a bounded ring queue that drops the oldest frame when it is
  full;
- a periodic reporter tick drains the storage, sorts the frames by sequence
  number, encodes them and sends one packet over the transport;
- the cached transport keeps packets in a size-bounded file cache when a
  send fails, and sends the cached packets first on the next send.

The modules follow the source files:

| file | module | Swift file |
|---|---|---|
| `common.dfy` | `Common`, `Sorting` | shared `Option`/`Result`/error types; the stable sort that both `files()` and the reporter rely on |
| `datasource.dfy` | `Datasource` | the `DataType` value and the `(sequence, frame)` event pair |
| `ring_queue.dfy` | `RingQueues` | `Datastore/RingQueue.swift` |
| `storage.dfy` | `Storage` | `Manager/Storage.swift` |
| `file_cache.dfy` | `FileCache`, `FileCacheScenarios` | `Datastore/FileCache.swift` |
| `cached_transport.dfy` | `CachedTransport` | `Transport/Cached.swift` |
| `reporter.dfy` | `Reporting` | `Manager/Reporter.swift` |
| `touch.dfy` | `Touch` | `Datasource/Gesture/Touch.swift` |
| `dispatcher.dfy` | `WindowEvents` | `Datasource/Gesture/TrapWindowEventDispatcher.swift` |
| `gesture.dfy` | `Gestures` | `Datasource/Gesture/Gesture.swift` |
| `bluetooth.dfy` | `Bluetooth` | `Datasource/Bluetooth.swift` |

How the platform is modelled:

- Objects that the source updates in place are classes with `modifies`
  frames. This covers the ring queue over an `array`, the storage and its
  iterator, the file cache and its directory, the transports, the reporter,
  the touch recognizer, the dispatcher, the gesture collector and the
  Bluetooth collector.
- Each class is specified against pure functions that the lemmas are about:
  - `Enqueued`/`EnqueuedAll` for the ring queue;
  - `Files`, `Evicted`, `Pushed` and `Without` for the cache;
  - `TickPacket` for the reporter;
  - `Steps` for the touch recognizer;
  - `Dispatched` for the dispatcher;
  - `Added`/`Removed`/`AddedAll`/`RemovedAll` for recognizer lists.
- The outcome of a file or network operation is left open (a nondeterministic
  choice). Every contract covers both the success and the failure outcome.
  The directory logs every operation it refused (`refusals`), and the
  transport logs every reply it gave (`replies`). The errors and replies the
  cache and the cached transport report are stated in terms of these logs, so
  an error is reported exactly when the file system refused something.
  Each failure also names the operation that was refused: for a push, the
  listing, the delete of the next evicted file or the write of the new file;
  for a read of the cache, the listing or the read of one listed file.
- The file system is a `Directory` object that holds `FileEntry` values.
- The underlying transport is a `Transport` object that logs its calls.
  UIKit windows and the Core Bluetooth manager log the calls made on them in
  the same way.
- Clocks, UUIDs, the URL parser, the JSON encoder and the order in which a
  `Set` or `Dictionary` is iterated are parameters.

## Model

| member | source | states |
|---|---|---|
| RingQueues.EnqueuedAll | Sources/Trap/Datastore/RingQueue.swift:91-104 | enqueuing a sequence never holds more than the capacity |
| RingQueues.EnqueuedIsLast | Sources/Trap/Datastore/RingQueue.swift:91-104 | one enqueue keeps exactly the newest `capacity` elements of old contents plus the item |
| RingQueues.EnqueuedAllIsLast | Sources/Trap/Datastore/RingQueue.swift:91-104 | any run of enqueues keeps exactly the newest `capacity` elements of everything enqueued, so the oldest are the ones dropped |
| RingQueues.EnqueuedAllWithinCapacity | Sources/Trap/Datastore/RingQueue.swift:91-104 | while no more than `capacity` elements were enqueued into an empty queue, nothing is lost |
| RingQueues.LastOfLast | Sources/Trap/Datastore/RingQueue.swift:91-104 | dropping the oldest elements early or late gives the same contents |
| RingQueues.NextIndex | Sources/Trap/Datastore/RingQueue.swift:101 | the write index advances by one and wraps to 0 at the capacity |
| RingQueues.RingQueue.constructor | Sources/Trap/Datastore/RingQueue.swift:64-69 | a queue of the given capacity over a fresh buffer of empty slots, with no contents, count 0 and index 0 |
| RingQueues.RingQueue.RemoveAll | Sources/Trap/Datastore/RingQueue.swift:74-76 | the contents become empty and the count 0, and the write index is kept |
| RingQueues.RingQueue.IsEmpty | Sources/Trap/Datastore/RingQueue.swift:83-85 | true exactly when the queue holds nothing |
| RingQueues.RingQueue.Enqueue | Sources/Trap/Datastore/RingQueue.swift:91-104 | the new contents are the old ones plus the item, with the oldest dropped when full; the index advances modulo the capacity; the count grows until it reaches the capacity |
| RingQueues.RingQueue.Dequeue | Sources/Trap/Datastore/RingQueue.swift:109-124 | on an empty queue it returns nil and changes nothing; otherwise it returns the oldest element and removes exactly that one |
| RingQueues.RingQueue.TakeAll | Sources/Trap/Datastore/RingQueue.swift:130-165 | returns all contents oldest first and leaves the queue empty with its index kept |
| RingQueues.EnqueueOverCapacity | Tests/TrapTests/Datastore/RingQueueTests.swift:29-35 | four enqueues into a queue of capacity 3 leave a count of 3 and take `[675, 435, 214]` |
| RingQueues.DequeuesOldestWithinCapacity | Tests/TrapTests/Datastore/RingQueueTests.swift:37-45 | after four enqueues the dequeues give 675, 435, 214 and then nil |
| RingQueues.TakeAllWithOnceFullQueue | Tests/TrapTests/Datastore/RingQueueTests.swift:63-70 | one dequeue of a once-full queue gives 675, then takeAll gives `[435, 214]` |
| RingQueues.TakeAllLessThanFullAndRemoveAll | Tests/TrapTests/Datastore/RingQueueTests.swift:47-52 | a queue that was never full takes `[987, 675]`; after removeAll the count is 0 and a later enqueue is the only element |
| Storage.TrapStorage.constructor | Sources/Trap/Manager/Storage.swift:12-15 | the storage owns a fresh, empty queue of the configured size |
| Storage.TrapStorage.Save | Sources/Trap/Manager/Storage.swift:17-19 | the `(sequence, data)` pair is enqueued with the ring queue's overwrite rule |
| Storage.TrapStorage.MakeIterator | Sources/Trap/Manager/Storage.swift:21-23 | a fresh iterator over the storage's own queue, not over a copy |
| Storage.TrapDatasourceIterator.constructor | Sources/Trap/Manager/Storage.swift:31-33 | the iterator wraps the given queue |
| Storage.TrapDatasourceIterator.Next | Sources/Trap/Manager/Storage.swift:35-37 | `next()` dequeues: nil on an empty queue, otherwise the oldest pair, which is removed |
| Storage.DrainAll | Sources/Trap/Manager/Storage.swift:35-37 | iterating to the end yields every stored pair oldest first and empties the queue |
| Storage.StoreRetrieve | Tests/TrapTests/Manager/StorageTests.swift:5-15 | a saved `(1, int(1))` is what the iterator returns |
| Storage.IteratorsShareTheQueue | Sources/Trap/Manager/Storage.swift:21-37 | draining one iterator also empties every other iterator and the storage |
| Sorting.SortBy | Sources/Trap/Datastore/FileCache.swift:94 | the stable sort result is ordered by key and is a permutation of its input of the same length |
| Sorting.SortSorted | Sources/Trap/Manager/Reporter.swift:94-96 | sorting an already ordered sequence leaves it as it is |
| Common.JoinSnoc | Sources/Trap/Manager/Reporter.swift:102 | `joined(separator:)` of parts plus one more is the old join, the separator and the new part |
| FileCache.AsciiSize | Sources/Trap/Datastore/FileCache.swift:89 | the size of a file written from ASCII text is its number of characters |
| FileCache.SumConcat | Sources/Trap/Datastore/FileCache.swift:63-68 | the total size of two listings is the sum of their totals |
| FileCache.SumPermutation | Sources/Trap/Datastore/FileCache.swift:83-97 | reordering a listing does not change its total size |
| FileCache.Files | Sources/Trap/Datastore/FileCache.swift:83-97 | the listing is ordered by creation date, newest last, and holds exactly the directory's files |
| FileCache.PathSetMembers | Sources/Trap/Datastore/FileCache.swift:100-105 | a path is among a listing's paths exactly when some entry has it |
| FileCache.Without | Sources/Trap/Datastore/FileCache.swift:107-109 | deleting files never adds entries |
| FileCache.WithoutMembers | Sources/Trap/Datastore/FileCache.swift:107-109 | an entry survives deletion of a path set exactly when it was there and its path is not in the set |
| FileCache.WithoutTwice | Sources/Trap/Datastore/FileCache.swift:107-109 | deleting one set of paths, then another, is deleting their union |
| FileCache.WithoutConcat | Sources/Trap/Datastore/FileCache.swift:107-109 | deletion acts on each part of a listing independently |
| FileCache.WithoutPermutation | Sources/Trap/Datastore/FileCache.swift:107-109 | deletion from permuted listings gives permuted results |
| FileCache.WithoutKeepsDistinct | Sources/Trap/Datastore/FileCache.swift:107-109 | after deletion no two files share a path |
| FileCache.DistinctPermutation | Sources/Trap/Datastore/FileCache.swift:83-97 | sorting a listing keeps its paths distinct |
| FileCache.KeptCount | Sources/Trap/Datastore/FileCache.swift:61-71 | the number of files cleanup keeps never exceeds the number listed |
| FileCache.KeptCountIsLongest | Sources/Trap/Datastore/FileCache.swift:61-71 | cleanup keeps the longest oldest-first prefix whose running total stays within the budget |
| FileCache.EvictionBoundary | Sources/Trap/Datastore/FileCache.swift:63-68 | the file at position i is deleted exactly when the running total through it exceeds the budget |
| FileCache.SurvivorsArePrefix | Sources/Trap/Datastore/FileCache.swift:61-71 | the files left after cleanup are exactly that prefix, in order |
| FileCache.CleanupFitsBudget | Sources/Trap/Datastore/FileCache.swift:61-71 | after a successful cleanup the directory's total size is within the budget |
| FileCache.PushedWithinBudget | Sources/Trap/Datastore/FileCache.swift:45-50 | after push the directory holds at most the budget plus the size of the new file |
| FileCache.Directory.constructor | Sources/Trap/Datastore/FileCache.swift:15-42 | a directory holding the given files, with no refusals yet |
| FileCache.Directory.List | Sources/Trap/Datastore/FileCache.swift:84 | a successful listing gives the entries; a failing one gives an I/O error and is logged as a refusal; the files are unchanged |
| FileCache.Directory.Remove | Sources/Trap/Datastore/FileCache.swift:107-109 | a successful removal deletes exactly that path, which existed; a failure changes no file and logs the refused path |
| FileCache.Directory.Read | Sources/Trap/Datastore/FileCache.swift:111-113 | a successful read gives the content of a file with that path; a missing file always fails; a failure logs the refused path |
| FileCache.Directory.Write | Sources/Trap/Datastore/FileCache.swift:48-49 | a successful write appends a file with the data, its UTF-8 size and the current time; a failure changes no file and logs the refused path |
| FileCache.Content | Sources/Trap/Datastore/FileCache.swift:111-113 | `Record.content()` reads the record's file and fails for a missing one; a failure is logged as a refused read of that file |
| FileCache.Delete | Sources/Trap/Datastore/FileCache.swift:107-109 | `Record.delete()` removes the record's file on success; on failure it leaves the directory intact and logs the refused removal of that file |
| FileCache.DeletedStep | Sources/Trap/Datastore/FileCache.swift:63-68 | one step of the cleanup loop deletes the file exactly when the running total through it exceeds the budget |
| FileCache.WalkStep | Sources/Trap/Datastore/FileCache.swift:63-68 | one step of the cleanup loop moves the directory from the state after the earlier deletions to the state after one more |
| FileCache.DeletedSoFar | Sources/Trap/Datastore/FileCache.swift:61-71 | the loop's deletions so far are a prefix of the files to evict, and all of them once the loop ends |
| FileCache.TrapFileCache.constructor | Sources/Trap/Datastore/FileCache.swift:15-42 | the cache works on the given directory with the given budget |
| FileCache.TrapFileCache.ListFiles | Sources/Trap/Datastore/FileCache.swift:83-97 | `files()` gives the directory's files oldest first, or an I/O error logged as a refused listing |
| FileCache.TrapFileCache.GetAll | Sources/Trap/Datastore/FileCache.swift:53-57 | `getAll()` gives one record per file, oldest first, or an I/O error logged as a refused listing |
| FileCache.TrapFileCache.Cleanup | Sources/Trap/Datastore/FileCache.swift:61-71 | deletes the files beyond the budget in order, all of them unless the file system refuses; the error is exactly a refused listing (nothing deleted) or the refused removal of the next file due for deletion, and the earlier deletions stay |
| FileCache.TrapFileCache.Walk | Sources/Trap/Datastore/FileCache.swift:63-70 | the `forEach` loop of cleanup, step by step; it runs to the end unless a removal is refused, and then it stops at that file, which is over the budget |
| FileCache.TrapFileCache.WalkFile | Sources/Trap/Datastore/FileCache.swift:64-69 | one file of the walk: deleted exactly when the running total through it is over the budget, with a refused removal logged |
| FileCache.StoppedAtEvicted | Sources/Trap/Datastore/FileCache.swift:63-70 | a walk stopped at a file over the budget stopped at the next file cleanup would delete |
| FileCache.TrapFileCache.Push | Sources/Trap/Datastore/FileCache.swift:45-50 | push cleans up first, then writes the new file; without a refusal the directory is `Pushed` of the old listing. A failure is an I/O error with exactly one refusal, naming where push stopped (`PushFailed`): a refused listing with nothing deleted; or the refused delete of the next evicted file, with the evicted files before it deleted; or, once every evicted file is deleted, the refused write of the new file |
| FileCache.PushFailedSparesNewFile | Sources/Trap/Datastore/FileCache.swift:45-50 | a failed push never names the delete of its own new file: cleanup only deletes files that were already cached |
| FileCacheScenarios.KeptAllUnderBudget | Sources/Trap/Datastore/FileCache.swift:61-71 | a listing whose total is within budget loses nothing to cleanup |
| FileCacheScenarios.PushUnderBudget | Sources/Trap/Datastore/FileCache.swift:45-50 | a push that stays within budget only appends the new file |
| FileCacheScenarios.PacketSize | Tests/TrapTests/Datastore/FileCacheTests.swift:20-34 | the test's packets 1 to 9 are 31 bytes long and packet 10 is 32 |
| FileCacheScenarios.OverCapacitySizes | Tests/TrapTests/Datastore/FileCacheTests.swift:20-34 | the test writes ten files, nine of 31 bytes and a last one of 32 |
| FileCacheScenarios.KeepsEight | Tests/TrapTests/Datastore/FileCacheTests.swift:20-34 | with a budget of 256 and nine files of 31 bytes plus one of 32, cleanup evicts exactly the ninth file |
| FileCacheScenarios.EvictsNinth | Tests/TrapTests/Datastore/FileCacheTests.swift:20-34 | the tenth push leaves the first eight files and the new one |
| FileCacheScenarios.NinePushesKeepAll | Tests/TrapTests/Datastore/FileCacheTests.swift:20-34 | the first nine pushes evict nothing |
| FileCacheScenarios.TenPushes | Tests/TrapTests/Datastore/FileCacheTests.swift:20-34 | the pushes run as the test expects, ending with the ninth file evicted |
| FileCacheScenarios.OverCapacityLeavesNine | Tests/TrapTests/Datastore/FileCacheTests.swift:20-34 | after the ten pushes `getAll()` gives nine records |
| FileCacheScenarios.StoreRetrieve | Tests/TrapTests/Datastore/FileCacheTests.swift:12-18 | a pushed "This is a test" is the single record and its content |
| CachedTransport.Transport.constructor | Sources/Trap/Transport/Transport.swift:9-18 | a transport of the given kind that has received no calls and given no replies |
| CachedTransport.Transport.Start | Sources/Trap/Transport/Transport.swift:11 | `start()` is logged and gives no reply |
| CachedTransport.Transport.Stop | Sources/Trap/Transport/Transport.swift:14 | `stop()` is logged and gives no reply |
| CachedTransport.Transport.Send | Sources/Trap/Transport/Transport.swift:17 | a send and the reply it gave are logged; a silent transport never calls back, and a failure is reported as a transport error |
| CachedTransport.UnframedFramed | Sources/Trap/Transport/Cached.swift:33-35 | dropping the first character and the last two of a reporter packet `[\n…\n]` leaves `\n` and its body |
| CachedTransport.BatchOfPackets | Sources/Trap/Transport/Cached.swift:32-38 | the batch of cached packets is their unframed contents joined with `,`, in brackets |
| CachedTransport.BatchOfOne | Sources/Trap/Transport/Cached.swift:32-38 | a batch of one cached packet is that packet's body in brackets |
| CachedTransport.FramedContents | Sources/Trap/Transport/Cached.swift:32-34 | when every cached file is at least three characters long, every content can be unframed |
| CachedTransport.TrapCachedTransport.constructor | Sources/Trap/Transport/Cached.swift:10-18 | wraps the given transport; a cache exists exactly when its directory could be created, with the given budget (release-build behaviour, see Left out) |
| CachedTransport.TrapCachedTransport.Start | Sources/Trap/Transport/Cached.swift:20-22 | starts the underlying transport |
| CachedTransport.TrapCachedTransport.Stop | Sources/Trap/Transport/Cached.swift:24-26 | stops the underlying transport |
| CachedTransport.TrapCachedTransport.ReadCached | Sources/Trap/Transport/Cached.swift:30-34 | without a cache there is nothing cached; otherwise the records and contents of all cached files, oldest first, with no refusal. The alternative is an I/O error whose one logged refusal is the listing or the read of a listed file (`ReadFailed`). The files are unchanged |
| CachedTransport.TrapCachedTransport.DeleteAll | Sources/Trap/Transport/Cached.swift:41-45 | deletes the cached files in order; without a refusal every file is deleted, and otherwise the run stops at the file whose removal was refused, which is logged |
| CachedTransport.TrapCachedTransport.Send | Sources/Trap/Transport/Cached.swift:28-59 | a failing read reports the error, logs the refused listing or file read, and sends nothing; otherwise it sends the batch of cached packets, if there are any, then the live packet, and `batchReply`/`liveReply` are the replies the transport logged. The cache is deleted only after the batch succeeds, and then entirely unless a removal is refused (that refusal is logged). A failed live packet is pushed into the cache exactly as `Push` does unless the file system refuses, and then the refusal and the files left are those of a failed `Push` of what the batch left (`PushFailed`). The cache is otherwise untouched by the live send. The handler sees a batch error, and sees nil once the live send succeeds |
| CachedTransport.TrapCachedTransport.SendAll | Sources/Trap/Transport/Cached.swift:32-55 | after a successful read: the batch and the live send, with the same promises as `Send`, stated on the directory as read |
| CachedTransport.TrapCachedTransport.SendBatch | Sources/Trap/Transport/Cached.swift:32-46 | an empty cache sends nothing; otherwise one batch send whose reply is the logged one. Only a successful batch deletes, and then every record unless a removal is refused, which stops the deletion at the refused file |
| CachedTransport.TrapCachedTransport.SendLive | Sources/Trap/Transport/Cached.swift:49-55 | the live packet is sent and its reply is the logged one; on a failure it is pushed into the cache, which then holds the pushed listing exactly when the file system refused nothing, and otherwise what a failed `Push` leaves, with its named refusal (`PushFailed`); without a failure the cache is unchanged |
| CachedTransport.HandlerCalls | Sources/Trap/Transport/Cached.swift:36-55 | the handler is called at most twice: with a batch error, and with success once the live send succeeds |
| CachedTransport.PushedMembers | Sources/Trap/Datastore/FileCache.swift:45-50 | after push the cache holds only old files and the new one |
| CachedTransport.ForwardsToUnderlying | Tests/TrapTests/Transport/CachedTests.swift:6-27 | start, send "Test Data" and stop reach the underlying transport in that order, with no handler call when the cache reads fine |
| CachedTransport.SendToEmptyCache | Tests/TrapTests/Transport/CachedTests.swift:21-23 | with an empty cache over a transport that never completes, "Test Data" goes to the underlying transport unchanged and the handler is not called; when the listing fails nothing is sent and the handler gets the error |
| Reporting.ReplaceAbsent | Sources/Trap/Manager/Reporter.swift:57-59 | replacing a pattern that does not occur leaves the text unchanged |
| Reporting.ReplaceFront | Sources/Trap/Manager/Reporter.swift:57-59 | a leading occurrence is replaced and the scan goes on after it |
| Reporting.ReplaceSkips | Sources/Trap/Manager/Reporter.swift:57-59 | text without the pattern's first character is copied through unchanged |
| Reporting.DefaultSessionFilled | Sources/Trap/Manager/Reporter.swift:57-58 | filling the session id into the default URL keeps the stream placeholder in front of it |
| Reporting.DefaultStreamFilled | Sources/Trap/Manager/Reporter.swift:59 | filling in the stream id then puts it in front of the session id |
| Reporting.DefaultEndpoint | Sources/Trap/Config.swift:81 | the default configuration posts to `https://example.com/api/post/<streamId>/<sessionId>` |
| Reporting.ConnectionSchemes | Sources/Trap/Manager/Reporter.swift:63-75 | a transport exists exactly for ws, wss, http and https, a web socket for ws and wss, HTTP for http and https |
| Reporting.EncodeAll | Sources/Trap/Manager/Reporter.swift:100-104 | the encoding succeeds exactly when every frame encodes, and then holds each frame's encoding in order |
| Reporting.PacketLayout | Sources/Trap/Manager/Reporter.swift:106-112 | the packet is `[\n`, the header, `,\n`, the metadata, `,\n`, the events joined with `,\n`, and `\n]` |
| Reporting.TickPacketCases | Sources/Trap/Manager/Reporter.swift:94-112 | a tick sends a packet exactly when the store held a pair and every frame encodes; the frames are then in ascending sequence order and are the stored pairs rearranged |
| Reporting.InOrderStaysInOrder | Sources/Trap/Manager/Reporter.swift:94-96 | frames stored in sequence order are reported in that order |
| Reporting.TrapReporter.constructor | Sources/Trap/Manager/Reporter.swift:36-45 | the reporter has the given storage and configuration, no task, no transport and sequence id 0 |
| Reporting.TrapReporter.Start | Sources/Trap/Manager/Reporter.swift:52-118 | a running task makes start a no-op. Otherwise it draws a new stream id and fills in the URL. An unparsable URL is a URL error, an unknown scheme a scheme error, and no task is scheduled. Else the matching transport is created and started, wrapped in a cached transport when configured, and the reporter task is scheduled |
| Reporting.TrapReporter.Stop | Sources/Trap/Manager/Reporter.swift:121-124 | the reporter task is cancelled but stays set, and the transport, if any, is stopped |
| Reporting.TrapReporter.GetHeader | Sources/Trap/Manager/Reporter.swift:127-142 | the header carries the current sequence id, which then grows by one |
| Reporting.TrapReporter.Tick | Sources/Trap/Manager/Reporter.swift:94-116 | drains the storage and sends `TickPacket` of what it held. The sequence id grows only when a packet is built, and nothing is sent otherwise |
| Reporting.TrapReporter.Collect | Sources/Trap/Manager/Reporter.swift:94-110 | the packet of a tick equals `TickPacket` of the drained pairs |
| Reporting.TrapReporter.Drain | Sources/Trap/Manager/Reporter.swift:94-96 | `storage.sorted` empties the storage and yields its frames in ascending sequence order |
| Reporting.TrapReporter.Deliver | Sources/Trap/Manager/Reporter.swift:112-116 | a direct transport sends the packet; a cached one either sends nothing, when reading the cache fails, or sends the packet last |
| Reporting.SendCached | Sources/Trap/Manager/Reporter.swift:112-116 | the packet handed to a cached transport is either the last thing sent or, when reading the cache fails, nothing is sent; the cache stays framed |
| Reporting.StartStopStart | Sources/Trap/Manager/Reporter.swift:52-53 | starting after a stop changes nothing: the transport saw start and stop only, and the stream id is the first one |
| Reporting.FailedStartRetries | Sources/Trap/Manager/Reporter.swift:60 | a start that fails on its URL schedules nothing, so a later start succeeds |
| Reporting.SuccessiveHeaders | Sources/Trap/Manager/Reporter.swift:127-142 | two headers carry consecutive sequence ids |
| Touch.DirectSamples | Sources/Trap/Datasource/Gesture/Touch.swift:46-54 | only direct samples are reported; all are kept when all are direct, and none when none is |
| Touch.DirectSamplesMembers | Sources/Trap/Datasource/Gesture/Touch.swift:46-54 | the reported samples are exactly the direct ones |
| Touch.DirectSamplesAppend | Sources/Trap/Datasource/Gesture/Touch.swift:84-85 | reporting keeps the order of the samples: two runs report the first run's direct samples, then the second's |
| Touch.SampleFramesOfDirect | Sources/Trap/Datasource/Gesture/Touch.swift:56-67 | a direct sample becomes one frame with its timestamp as sequence; non-direct samples give no frames |
| Touch.FirstFree | Sources/Trap/Datasource/Gesture/Touch.swift:73 | `firstIndex(of: nil)` is the lowest empty slot, and is absent exactly when every slot is taken |
| Touch.IndexOf | Sources/Trap/Datasource/Gesture/Touch.swift:115 | the finger of a touch is its first slot, or -1 exactly when it holds no slot |
| Touch.Allocate | Sources/Trap/Datasource/Gesture/Touch.swift:72-80 | corrected allocation (the other half of the finding below): a new touch takes the lowest free slot, or is appended when none is free, and reports the slot it took |
| Touch.AllocationsCompared | Sources/Trap/Datasource/Gesture/Touch.swift:72-80 | the code as written and the corrected allocation store the touch in the same slot; they report the same finger while a slot is free, and on a full table the code reports one more |
| Touch.SixthTouchAsWritten | Sources/Trap/Datasource/Gesture/Touch.swift:76-79 | a sixth touch as written begins as finger 6 but is found at slot 5 afterwards |
| Touch.AllocatedIsFound | Sources/Trap/Datasource/Gesture/Touch.swift:72-80 | for the corrected allocation, the finger a touch began with is the one later lookups find |
| Touch.BeginThenEnd | Sources/Trap/Datasource/Gesture/Touch.swift:150-163 | ending a touch frees its slot, so the table is as before, with one more empty slot if it had grown |
| Touch.SameFingerThroughout | Sources/Trap/Datasource/Gesture/Touch.swift:70-200 | a touch that begins in a free slot keeps its finger from begin to end; one that begins on a full table reports one more at its begin than afterwards; slots stay distinct, and no slot holds the touch after it ends or is cancelled |
| Touch.MovesKeepTable | Sources/Trap/Datasource/Gesture/Touch.swift:113-124 | moves never change the finger table |
| Touch.TableNeverShrinks | Sources/Trap/Datasource/Gesture/Touch.swift:70-200 | only begins grow the table; other phases keep its size |
| Touch.TouchRecognizer.constructor | Sources/Trap/Datasource/Gesture/Touch.swift:38-43 | the recognizer starts with five empty slots |
| Touch.TouchRecognizer.Handle | Sources/Trap/Datasource/Gesture/Touch.swift:70-200 | handling a set of touches steps through them in order, and the table and frames are those of `Steps`, with the finger numbers the code computes |
| Touch.TouchRecognizer.TouchesBegan | Sources/Trap/Datasource/Gesture/Touch.swift:70-87 | new touches take slots and report start frames (type 100) with the finger numbers the code computes, one past the slot on a full table |
| Touch.TouchRecognizer.TouchesMoved | Sources/Trap/Datasource/Gesture/Touch.swift:113-124 | moved touches report move frames (type 101) and the table is unchanged |
| Touch.TouchRecognizer.TouchesEnded | Sources/Trap/Datasource/Gesture/Touch.swift:150-163 | ended touches report stop frames (type 102) and free their slots |
| Touch.TouchRecognizer.TouchesCancelled | Sources/Trap/Datasource/Gesture/Touch.swift:187-200 | cancelled touches report stop frames (type 102) and free their slots |
| Touch.TouchRecognizer.ShouldReceive | Sources/Trap/Datasource/Gesture/Touch.swift:207-211 | a touch on a control is begun without coalescing and refused; any other touch is accepted untouched |
| Touch.BeginMoveEndBeginCancel | Tests/TrapTests/Datasource/GestureTests.swift:20-101 | begin, move, end, begin again and cancel of one finger give types 100, 101, 102, 100, 102, all as finger 0 |
| WindowEvents.FirstIndex | Sources/Trap/Datasource/Gesture/TrapWindowEventDispatcher.swift:16 | the first position of a recognizer, absent exactly when it is not in the list |
| WindowEvents.AddedKeepsNoDuplicates | Sources/Trap/Datasource/Gesture/TrapWindowEventDispatcher.swift:15-20 | adding keeps the list free of duplicates and the recognizer is in it |
| WindowEvents.RemovedDeletesOne | Sources/Trap/Datasource/Gesture/TrapWindowEventDispatcher.swift:23-28 | removing deletes exactly that recognizer from a list without duplicates |
| WindowEvents.AddThenRemove | Sources/Trap/Datasource/Gesture/TrapWindowEventDispatcher.swift:15-28 | removing a newly added recognizer restores the list |
| WindowEvents.Group | Sources/Trap/Datasource/Gesture/TrapWindowEventDispatcher.swift:40 | a phase group holds exactly the touches of the event in that phase |
| WindowEvents.GroupAppend | Sources/Trap/Datasource/Gesture/TrapWindowEventDispatcher.swift:40 | grouping keeps the order of the touches it is given |
| WindowEvents.Dispatched | Sources/Trap/Datasource/Gesture/TrapWindowEventDispatcher.swift:31-60 | nothing is forwarded without recognizers, for an event type that is not forwarded, or without touches |
| WindowEvents.DispatchEmpty | Sources/Trap/Datasource/Gesture/TrapWindowEventDispatcher.swift:32 | no recognizers, no calls |
| WindowEvents.DispatchOnlyRouted | Sources/Trap/Datasource/Gesture/TrapWindowEventDispatcher.swift:40-56 | every call forwards a routed phase group to a listed recognizer |
| WindowEvents.DispatchReachesAll | Sources/Trap/Datasource/Gesture/TrapWindowEventDispatcher.swift:40-56 | every listed recognizer receives every routed phase group |
| WindowEvents.UnroutedGroupsDropped | Sources/Trap/Datasource/Gesture/TrapWindowEventDispatcher.swift:54-55 | a phase without a handler (the region phases of the default case) is forwarded to no one |
| WindowEvents.StationaryForwardedAsMoves | Sources/Trap/Datasource/Gesture/TrapWindowEventDispatcher.swift:48-49 | a stationary group goes to every recognizer, in list order, through its move handler |
| WindowEvents.TrapWindowEventDispatcher.constructor | Sources/Trap/Datasource/Gesture/TrapWindowEventDispatcher.swift:9-12 | the dispatcher starts with no recognizers |
| WindowEvents.TrapWindowEventDispatcher.AddGestureRecognizer | Sources/Trap/Datasource/Gesture/TrapWindowEventDispatcher.swift:15-20 | appends a recognizer not yet listed and keeps the list free of duplicates |
| WindowEvents.TrapWindowEventDispatcher.RemoveGestureRecognizer | Sources/Trap/Datasource/Gesture/TrapWindowEventDispatcher.swift:23-28 | removes the recognizer if listed |
| WindowEvents.TrapWindowEventDispatcher.SendEvent | Sources/Trap/Datasource/Gesture/TrapWindowEventDispatcher.swift:31-60 | the calls made are `Dispatched` of the event |
| WindowEvents.TrapWindowEventDispatcher.ForEach | Sources/Trap/Datasource/Gesture/TrapWindowEventDispatcher.swift:43-54 | each recognizer, in list order, gets the group once |
| Gestures.StartsWith | Sources/Trap/Datasource/Gesture/Gesture.swift:30-39 | `hasPrefix` is the prefix relation |
| Gestures.FilteredForPrivacyPrefixes | Sources/Trap/Datasource/Gesture/Gesture.swift:30-39 | a window is filtered exactly when its description starts with the text effects or remote keyboard prefix |
| Gestures.KeyWindowNotFiltered | Sources/Trap/Datasource/Gesture/Gesture.swift:30-39 | an ordinary window is not filtered |
| Gestures.AddedAllFresh | Sources/Trap/Datasource/Gesture/Gesture.swift:48-50 | adding fresh distinct recognizers appends them in order |
| Gestures.AddThenRemoveAll | Sources/Trap/Datasource/Gesture/Gesture.swift:42-64 | removing the recognizers a window was given restores its list |
| Gestures.RemovedAllAdded | Sources/Trap/Datasource/Gesture/Gesture.swift:55-64 | removing them also restores it when the window gained others later |
| Gestures.Window.constructor | Sources/Trap/Datasource/Gesture/Gesture.swift:42-64 | a window with its hash, its description and no recognizers |
| Gestures.Window.AddGestureRecognizer | Sources/Trap/Datasource/Gesture/Gesture.swift:49 | UIKit appends a recognizer not yet attached |
| Gestures.Window.RemoveGestureRecognizer | Sources/Trap/Datasource/Gesture/Gesture.swift:61 | UIKit detaches the recognizer if attached |
| Gestures.NewRecognizers | Sources/Trap/Datasource/Gesture/Gesture.swift:23-25 | each call creates one new, distinct recognizer per kind |
| Gestures.TrapGestureCollector.constructor | Sources/Trap/Datasource/Gesture/Gesture.swift:15-17 | no windows, no configuration and no recognizers yet |
| Gestures.TrapGestureCollector.CreateRecognizers | Sources/Trap/Datasource/Gesture/Gesture.swift:23-25 | fresh recognizers, none of which was created before |
| Gestures.TrapGestureCollector.AddRecognizers | Sources/Trap/Datasource/Gesture/Gesture.swift:42-52 | a filtered or already known window is left alone; otherwise new recognizers are attached to it and stored under its hash |
| Gestures.TrapGestureCollector.RemoveRecognizers | Sources/Trap/Datasource/Gesture/Gesture.swift:55-64 | an unknown window is left alone; otherwise exactly its recognizers are detached and its entry dropped |
| Gestures.TrapGestureCollector.AddRecognizersToDispatcher | Sources/Trap/Datasource/Gesture/Gesture.swift:95-100 | new recognizers are stored under the dispatcher key and added to the dispatcher |
| Gestures.TrapGestureCollector.RemoveRecognizersFromDispatcher | Sources/Trap/Datasource/Gesture/Gesture.swift:102-111 | the recognizers under the dispatcher key leave the dispatcher and the key is dropped |
| Gestures.TrapGestureCollector.Start | Sources/Trap/Datasource/Gesture/Gesture.swift:80-86 | the configuration is kept, and new recognizers are stored under key -1 and registered with the dispatcher whatever the configuration says |
| Gestures.TrapGestureCollector.Stop | Sources/Trap/Datasource/Gesture/Gesture.swift:88-93 | the recognizers stored under key -1, if any, leave the dispatcher and the key is dropped, whatever the configuration says |
| Gestures.StartThenStop | Sources/Trap/Datasource/Gesture/Gesture.swift:80-111 | start registers one new recognizer per kind with the dispatcher; stop removes them all and forgets them |
| Gestures.AddTwiceThenRemove | Sources/Trap/Datasource/Gesture/Gesture.swift:42-64 | adding to a window twice attaches one set of recognizers; removing detaches them and forgets the window |
| Gestures.KeyboardWindowIgnored | Sources/Trap/Datasource/Gesture/Gesture.swift:30-52 | a remote keyboard window gets no recognizers |
| Bluetooth.PermissionRefused | Sources/Trap/Datasource/Bluetooth.swift:29-42 | permission is refused exactly for a denied or an unknown authorization |
| Bluetooth.StateCode | Sources/Trap/Datasource/Bluetooth.swift:111-122 | code 3 exactly for a connected peripheral, 1 otherwise |
| Bluetooth.DiscoveredName | Sources/Trap/Datasource/Bluetooth.swift:102 | the peripheral's own name wins over the advertised one, and there is no name only when both are missing |
| Bluetooth.CentralManager.constructor | Sources/Trap/Datasource/Bluetooth.swift:67-72 | a manager in the given state that has received no calls |
| Bluetooth.CentralManager.RegisterForConnectionEvents | Sources/Trap/Datasource/Bluetooth.swift:160 | the call is logged |
| Bluetooth.CentralManager.ScanForPeripherals | Sources/Trap/Datasource/Bluetooth.swift:162 | the call is logged |
| Bluetooth.CentralManager.StopScan | Sources/Trap/Datasource/Bluetooth.swift:157 | the call is logged |
| Bluetooth.TrapBluetoothCollector.constructor | Sources/Trap/Datasource/Bluetooth.swift:13-17 | no manager and no peripherals reported |
| Bluetooth.TrapBluetoothCollector.CheckConfiguration | Sources/Trap/Datasource/Bluetooth.swift:19-27 | fails without the usage description and when the manager reports Bluetooth unsupported |
| Bluetooth.TrapBluetoothCollector.Start | Sources/Trap/Datasource/Bluetooth.swift:49-53 | a manager is set up only with permission and only if there is none |
| Bluetooth.TrapBluetoothCollector.RequestPermission | Sources/Trap/Datasource/Bluetooth.swift:44-47 | a manager exists afterwards; an existing one is kept |
| Bluetooth.TrapBluetoothCollector.Stop | Sources/Trap/Datasource/Bluetooth.swift:55-61 | a manager present is told to stop scanning, and the manager is dropped |
| Bluetooth.TrapBluetoothCollector.DidUpdateState | Sources/Trap/Datasource/Bluetooth.swift:74-92 | only a powered-on manager registers for connection events and starts scanning |
| Bluetooth.TrapBluetoothCollector.DidDiscover | Sources/Trap/Datasource/Bluetooth.swift:96-123 | a named peripheral not reported before is recorded once and reported with its state code; others are ignored |
| Bluetooth.TrapBluetoothCollector.ConnectionEventDidOccur | Sources/Trap/Datasource/Bluetooth.swift:127-147 | every event of a named peripheral is reported with code 3 |
| Bluetooth.DiscoveredOnce | Sources/Trap/Datasource/Bluetooth.swift:105-109 | a second discovery under the same identifier is not reported again |
| Bluetooth.CollectorTest | Tests/TrapTests/Datasource/BluetoothTest.swift:14-116 | the test's discovery and connection event give the expected frames, and stopping stops the scan |

## Left out

- `Datastore/ConcurrentRingQueue.swift`: the dispatch-queue locking around the ring queue is not modelled. The storage uses the plain ring queue, and every operation is taken as atomic.
- Transport internals (`Http.swift`, `Websocket.swift`): an underlying transport is a call log whose replies are open. The URL, keep-alive, request building and retry behaviour are not modelled.
- Scheduling: the reporter task's timer, its interval, the operation queue and the weak-self check are not modelled. A tick is a method that the caller invokes.
- Completion handlers run synchronously in the model, and the batch send completes before the live send starts. In the source both sends are asynchronous, so their order is not promised there.
- `Utils/Time.swift`, `Date()`, `UUID()` and `URL(string:)` are parameters: timestamps, stream ids and the URL parser.
- JSON encoding is a parameter `encode`. The header and metadata encodings are `try!` in the source, so the model requires that they succeed. `getMetadata` is an opaque string parameter.
- Gesture: `subscribeForGestureRecognizer`/`unsubscribeFromGestureRecognizer` (NotificationCenter and `UIApplication.windows`) are not modelled. The windows are given to `AddRecognizers`/`RemoveRecognizers` by the caller.
- Gesture: the concrete recognizers (`Pinch`, `Pointer`, `Stylus`, `Swipe`, `Tap`) are not modelled. `createRecongizers` mints `kinds` fresh identifiers.
- The `#available(iOS 13.4, *)` and iOS 17 availability checks are the `modern` flag of `SendEvent`. The touch type check is always applied.
- The iteration order of a `Set<UITouch>`, of `Dictionary(grouping:)` and of an unordered set is a parameter or a given sequence (`keys`).
- `FileCache.Utf8Size`: the file size is computed from characters, and graphemes are not Swift `Character`s. The file attribute defaults (`Date()` for a missing creation date, `UInt64.max` for a missing size) are not modelled: every file has both attributes.
- `FileCache.TrapFileCache.Push`: a `UInt64` overflow of the running total in `cleanup` would trap. The model requires the directory's total to fit in `UInt64`.
- `CachedTransport.TrapCachedTransport.Send`: the unframing of a cached file takes `content.index(_:offsetBy: 1)` and `content.index(endIndex, offsetBy: -2)` and slices between them, which traps on a file shorter than three characters. The model requires every cached file to be at least that long (`CacheFramed`), which the reporter's packets always are.
- `CachedTransport.TrapCachedTransport.constructor`: when the file cache cannot be created, the source calls `assertionFailure`, which stops a debug build. The model follows a release build, where the transport goes on without a cache.
- `RingQueues.RingQueue.Enqueue`: a queue of capacity 0 traps in the source (the write to `buffer[idx]` is out of range, and `% capacity` divides by zero). The model requires a positive capacity, so that trap is not modelled. `RingQueues.Enqueued` and `RingQueues.EnqueuedAll` have the same requirement.
- `Storage.TrapStorage.Save`: for the same reason, the model requires a storage of positive capacity.
- Sorting: Swift's `sort` is modelled as a stable insertion sort. Swift does not promise stability, so for equal keys the model fixes one order.
- `Reporting.TrapReporter.Tick`: with a caching transport, the contract only says that either nothing was sent (a failed cache read) or the packet was the last send. The exact batch is stated by `CachedTransport.TrapCachedTransport.Send`.
- `Reporting.TrapReporter.Deliver`, `Reporting.SendCached`: weaker in the same way, for the caching transport.
- No `clear()` of the file cache exists in the source, and the test mocks beyond the call logs are not modelled.
- The other collectors (location, Wi-Fi, sensors, battery, metadata) and `Manager.swift` are not part of this model.

Where the documentation and the code disagree, the model follows the code:

- The touch recognizer reports the finger numbers the code computes, including the off-by-one of a touch that begins on a full table (see Findings). The corrected allocation is `Touch.Allocate`, with its properties proved beside it.
- Cleanup keeps the oldest files that fit the budget and deletes the newer ones.
- `stop()` cancels the reporter task but never clears it, so a start after a stop does not restart the reporter (`Reporting.StartStopStart`).
- The reporter drains its storage through the iterator, whose `next()` dequeues. It does not use `takeAll`.
- The reporter creates its cached transport without a configuration, so the cache budget is always the default 5 000 000 bytes.

## Findings

| source | as written | input that shows it | evidently intended | confidence | as-written member | corrected member |
|---|---|---|---|---|---|---|
| Sources/Trap/Datasource/Gesture/Touch.swift:76-79 | when no slot is free, the touch is appended and `fingers.count` is returned, one past the slot it occupies | five touches down, then a sixth begins: it reports finger 6, but its moves and its end find it at index 5 | return the index of the appended slot (`fingers.count - 1`) so begin, move and end agree | not executed | Touch.SixthTouchAsWritten | Touch.AllocatedIsFound |
