# Verified models of the muduo reactor

This project models the parts of a Go port of the muduo network library where a mistake would show
only over a whole run: the task queue of the event loop and its wakeup, the timer queue, the byte
buffer and the outgoing stream of a connection, channels and the poller, the life of server
connections across loops, the client's connector, and the memcached example with its incremental
parser and sharded store.

Each module has a specification (steps on values), theorems over every run or every input, and, for
code that updates objects in place, a class whose methods are proved to take exactly the steps of the
specification.

| module | models | main results |
|---|---|---|
| `EventLoop` | `eventloop.go` | tasks run in push order, no lost wakeup, batches are finite, when a stop is lost |
| `TimerHeap`, `TimerRuns`, `TimerQueue` | `timer.go` | indexed heap, expiry passes, the timerfd is always armed, cancelling is final |
| `Poller` | `poller.go`, `channel.go` | the poller mirrors the kernel's interest set |
| `Lifecycle` | `tcp_server.go`, `tcp_conn.go` | the boss/worker relay, safety under reuse of descriptors |
| `ByteBuffer` | `buffer.go` | the buffer refines a byte queue; exactly when a write is truncated |
| `Outbound` | `tcp_conn.go` | integrity of the outgoing stream, half-close |
| `Connector` | `connector.go` | no panic, conservation of descriptors, backoff, exactly when a restart is safe |
| `Session` | `session.go` | independence of fragmentation, store included; exactly when a session panics |
| `Store` | `memcached_server.go`, `item.go` | slots refine one map, compare-and-swap over runs |
| `Decimal` | `socket.go`, `tcp_server.go` | the two printers agree and round-trip |

`dafny verify dfyconfig.toml` checks everything.

`Wrappers` holds what they share.

## Where the code departs from its intent

The model follows the code. For each departure there is a result that says exactly when it matters.

- `makeSpace` compares with the readable bytes where the consumed front is meant (buffer.go:115), so
  `Write` may keep only a prefix: `ByteBuffer.WriteIsCompleteIff`, `ByteBuffer.TwoWritesCanLoseBytes`;
  with the guard put right a write is a total append (`ByteBuffer.RepairedIsTotal`).
  `Outbound.WriteDropsIff` says when a connection loses bytes through it.
- On EWOULDBLOCK the count -1 is used as a slice bound, which panics, and as an advance, which makes a byte
  that was sent readable again (tcp_conn.go:132, 144, 237): `Outbound.WouldBlockHarms`,
  `Outbound.HandlerMayRepeatByte`.
- `handleWrite` is never registered (tcp_conn.go:55); the model lets it happen at any time, so the
  safety results hold with and without the registration.
- The queued half-close uses the descriptor without looking at the connection again (tcp_conn.go:174-192).
  It reaches the connection's own descriptor iff the connection was still in connMap when ShutdownWrite was
  called (`Lifecycle.ShutdownHitsOwnIff`); `Lifecycle.LateShutdownHitsReusedFd` is a run in which it meets
  another connection. After `handleClose` it can also cut off buffered bytes:
  `Outbound.HalfCloseCutsBytesIff`, `Outbound.HalfCloseMayCutBytes`.
- `connectDestroyed` calls the connection callback without the test for nil that `connectEstablished` has
  (tcp_conn.go:207 against 198): a server without one panics exactly when it destroys its first connection
  (`Lifecycle.NothingElsePanics`).
- `updateChannel` adds a Del channel even when it asks for nothing (poller.go:77-86): the poller
  invariant allows a watched channel with an empty mask.
- `cancel` leaves the task at index 0 in the heap (timer.go:109): `TimerRuns.CancelRemoves`,
  `TimerRuns.CanceledRootIsEvicted`. The arming of the timerfd relies on it.
- `Stop` does not wake the loop (eventloop.go:165-167): it is lost iff the loop is in epoll_wait with no
  wakeup on its way (`EventLoop.StopSleepsIff`, `EventLoop.QuitIsSeen`). `Loop` erases a quit stored before
  it (eventloop.go:138): `EventLoop.EntryErasesQuit`, `EventLoop.EarlyAsyncStopIsLost`.
- `Restart` while the closure that clears the channel is still queued loses the new channel
  (connector.go:61-66, 146): `Connector.RestartIsSafeIff`; a restart from inside the hand-over finds the
  closure waiting (`Connector.HandOverLeavesClear`).
- `NewItem` does not copy the key (item.go:34-47): an item swallows keylen extra bytes of the stream and
  takes its key from them (`Session.ItemSwallowsKeyLength`), may be stored where its key is not looked
  for (`Store.SetIsVisibleIff`), and append and prepend panic for every non-empty key that is there
  (`Store.StorePanicsIff`; repaired in `Store.RepairedJoinConcatenates`), so well-formed requests can end a
  session (`Session.AppendKillsSession`).
- A negative length is not rejected (session.go:248-280): depending on the key the code makes an item, or
  panics when it makes, completes or stores it (`Session.SessionIsSound`, `Session.CompletedFailsIff`).
- `bytesToDiscard` is reset before it is used (session.go:276-278, 81-82): `Session.DiscardSkipsNothing`.
- An empty line is never consumed (session.go:78): `Session.EmptyLineBlocks`; it is the only line that ever
  stays unprocessed (`Session.UnreadLineIff`).
- `DoDelete` indexes past its tokens for a line with a key alone (session.go:294); such a line counts as
  malformed.

## Model

| member | source | states |
|---|---|---|
| `EventLoop.TasksRunInPushOrder` | eventloop.go:71-96 | in every interleaving, executed ++ rest of the batch ++ pending equals the pushes in lock order, although the list pointer is read before the lock is taken |
| `EventLoop.NoLostWakeup` | eventloop.go:136-172 | a loop about to poll with tasks pending, or with quit set by AsyncStop after its check, has a readable eventfd or another thread on its way to write it |
| `EventLoop.BatchIsFrozen` | eventloop.go:85-96 | while a batch runs its list does not change, exactly a slice of it has been executed, and new pushes go to the next list |
| `EventLoop.EarlierPushesAreExecuted` | eventloop.go:140-152 | progress: once the loop has been through a batch after it was in epoll_wait, everything pushed up to then is a prefix of what has been executed |
| `EventLoop.BatchHoldsEarlierPushes` | eventloop.go:85-96 | a batch swapped out after the loop was in epoll_wait holds whatever was pushed before and not executed |
| `EventLoop.ExitNeedsQuit` | eventloop.go:140-152 | the loop leaves Loop only with quit set |
| `EventLoop.WakeupsAreReal` | eventloop.go:54-83 | the eventfd is readable only if somebody wrote it since it was last read |
| `EventLoop.NobodyIsStuck` | eventloop.go:71-96 | a thread inside a call, and the loop until it exits, can take its next step or waits for a lock whose holder can |
| `EventLoop.StopFromOutsideMaySleep` | eventloop.go:165-167 | a run in which Stop from another thread leaves the loop asleep with nobody about to wake it |
| `EventLoop.StopSleepsIff` | eventloop.go:165-167 | at every point of every run a call of Stop leaves the loop asleep iff it is in epoll_wait with an empty eventfd and no wakeup owed; a call on the loop thread never does |
| `EventLoop.SleepLasts` | eventloop.go:140-152 | a loop asleep with quit set stays so under every step but a push, an AsyncStop or the poll's own return |
| `EventLoop.QuitIsSeen` | eventloop.go:138-143 | after the entry quit never reverts, and set while the loop is not in epoll_wait it keeps the loop from ever entering epoll_wait again |
| `EventLoop.EntryErasesQuit` | eventloop.go:136-138 | the entry comes once, before everything else the loop does, and erases a quit stored earlier |
| `EventLoop.EarlyAsyncStopIsLost` | eventloop.go:136-172 | a run in which a whole AsyncStop before Loop has no effect |
| `EventLoop.StepKeepsLocks` | eventloop.go:71-96 | every step keeps mutual exclusion; the pointer read outside the lock is still current when the lock is taken, and after the swap nobody else reaches the old list |
| `EventLoop.StepKeepsOrder` | eventloop.go:71-96 | every step keeps the linearization |
| `EventLoop.StepKeepsWakeup` | eventloop.go:54-57 | every step keeps the wakeup invariant; the drain precedes the swap |
| `EventLoop.StepKeepsDebts` | eventloop.go:77-83 | a thread that owes a wakeup still owes it or has made the eventfd readable |
| `EventLoop.RunKeepsInv` | eventloop.go:136-152 | the whole invariant at every point of every run |
| `TimerHeap.TimerTask.constructor` | timer.go:26-37 | a new task repeats iff its interval is positive and is in no heap |
| `TimerHeap.RootIsLeast` | timer.go:222-224 | the top of an ordered heap has the least expiry |
| `TimerHeap.UpStep` | timer.go:200-209 | one exchange of heap.up moves the single gap in the order to the parent |
| `TimerHeap.DownStep` | timer.go:200-220 | one exchange of heap.down moves the gap below the earlier child |
| `TimerHeap.DownStops` | timer.go:211-220 | when no child is earlier the order is whole |
| `TimerHeap.ReplaceAt` | timer.go:109-111 | bringing the last task to any position disturbs only the edges there |
| `TimerHeap.TimerTaskHeap.LessAbove` | timer.go:190-198 | with the larger position first, as in every call of the heap algorithms, Less is strict comparison of expiries: the tie-break never decides |
| `TimerHeap.TimerTaskHeap.Swap` | timer.go:200-204 | exchanges two tasks and keeps positions and back-pointers in agreement |
| `TimerHeap.TimerTaskHeap.Up` | timer.go:206-209 | heap.up mends an order broken above one position |
| `TimerHeap.TimerTaskHeap.Down` | timer.go:211-220 | heap.down mends an order broken below one position and says whether it moved |
| `TimerHeap.TimerTaskHeap.EarlierChild` | timer.go:190-198 | the child compared with is one of least expiry |
| `TimerHeap.TimerTaskHeap.Push` | timer.go:206-209 | adds exactly the task; heap order and back-pointers hold |
| `TimerHeap.TimerTaskHeap.PopLast` | timer.go:211-220 | drops the last task and marks it with index -1 |
| `TimerHeap.TimerTaskHeap.Pop` | timer.go:211-220 | heap.Pop returns the root and removes exactly it |
| `TimerHeap.TimerTaskHeap.Remove` | timer.go:109-111 | heap.Remove takes out exactly the task at any index and leaves a heap |
| `TimerHeap.TimerTaskHeap.MoveToEnd` | timer.go:109-111 | the rearrangement before it: the task is last, the others are a heap |
| `TimerHeap.TimerTaskHeap.GetAndRemoveExpired` | timer.go:226-242 | returns exactly the tasks due, each once, in nondecreasing order; leaves exactly the later ones as a heap; `tmp == pop` cannot fail |
| `TimerHeap.TimerTaskHeap.AllLater` | timer.go:222-224 | no task of the heap is due before the top |
| `TimerHeap.TimerTaskHeap.TasksAreMembers` | timer.go:182-184 | the slice holds every member once and nothing else |
| `TimerRuns.Arm` | timer.go:152-165 | a timer armed for t covers a task due at t, does not fire before t, and has its deadline in the future |
| `TimerRuns.TimerIsArmed` | timer.go:81-176 | in every run, outside expiry passes, the timerfd covers every task in the heap: readable, or armed no later than its expiry or 100 microseconds after the last arming |
| `TimerRuns.StepKeepsArm` | timer.go:81-165 | every step keeps the arming invariant, also while callbacks schedule tasks due at or before the epoch |
| `TimerRuns.OneShotRunsOnce` | timer.go:115-142 | a task without interval runs at most once in any run |
| `TimerRuns.RepeatingTaskReturns` | timer.go:136-142 | at the end of every pass an expired task with an interval that is not cancelled is in the heap again, due one interval after the pass began; every other expired task has left and the rest is as it was |
| `TimerRuns.PassRunsDueTasks` | timer.go:115-130 | every pass runs the callback of each task that was due when it began and is not cancelled exactly once, and no other |
| `TimerRuns.ExpiriesAreReal` | timer.go:115-121 | the timerfd is readable only if a deadline it was armed for has passed since it was last read |
| `TimerRuns.CancelIsFinal` | timer.go:99-130 | once its cancel closure has run, a task never runs again and never re-enters the heap |
| `TimerRuns.CanceledRootIsEvicted` | timer.go:109-130 | a cancelled task is out of the heap for good after the first pass at or after its expiry |
| `TimerRuns.CancelRemoves` | timer.go:99-113 | the closure takes the task out at once iff it is not the root |
| `TimerRuns.StepKeepsQueue` | eventloop.go:102-134 | a cancel closure always waits behind the insertion of its task |
| `TimerRuns.StepKeepsTasks` | timer.go:91-142 | every step keeps: a cancelled task does not repeat, due tasks are outside the heap and distinct |
| `TimerRuns.StepKeepsOnce` | timer.go:115-142 | a one-shot task that may still run has not run |
| `TimerRuns.RunKeepsTasks` | timer.go:81-142 | these invariants at every point of every run |
| `TimerQueue.Queue.constructor` | timer.go:62-79 | an empty queue with a disarmed timerfd |
| `TimerQueue.Queue.ResetTimerFd` | timer.go:152-165 | the duration computed in truncated microseconds arms for the later of t and 100 microseconds from now: not before t, in time for a task due at t, and never disarmed |
| `TimerQueue.Queue.Insert` | timer.go:167-176 | adds the task and reports whether it is now the earliest |
| `TimerQueue.Queue.AddTask0` | timer.go:91-97 | takes the add step |
| `TimerQueue.Queue.AddTask` | timer.go:81-89 | creates a task and takes the add step |
| `TimerQueue.Queue.CancelClosure` | timer.go:99-113 | takes the cancel step |
| `TimerQueue.Queue.GetExpired` | timer.go:115-123 | takes the expiry step |
| `TimerQueue.Queue.Run` | timer.go:124-128 | runs the callback unless the task is cancelled |
| `TimerQueue.Queue.Renew` | timer.go:137-142 | a task with an interval that is not cancelled is due one interval later and in the heap again; nothing happens to any other |
| `TimerQueue.Queue.RenewAll` | timer.go:137-142 | the loop does so for every expired task |
| `TimerQueue.Queue.ArmRoot` | timer.go:143-149 | arms for the root unless it is due at or before the epoch |
| `TimerQueue.Queue.Reset` | timer.go:136-150 | takes the reset step |
| `TimerQueue.Queue.UserCallback` | timer.go:124-128 | any number of tasks scheduled by a callback keeps every root due by now covered |
| `TimerQueue.Queue.RunCallbacks` | timer.go:124-128 | exactly the callbacks of the due tasks that are not cancelled run, in order |
| `TimerQueue.Queue.HandleRead` | timer.go:115-130 | a whole expiry pass: which callbacks run; that expired tasks with an interval return one interval later unless cancelled and the others do not; that the timerfd covers the root afterwards whatever the callbacks scheduled |
| `TimerQueue.LiveMeans` | timer.go:124-128 | the callbacks run are those of the due tasks that are not cancelled, each once and earliest first |
| `TimerQueue.ResetCovers` | timer.go:143-149 | after a pass the root is covered although a root at or before the epoch is not armed for |
| `Poller.CallMirrors` | poller.go:73-122 | a call panics iff it is a first update while another channel holds the descriptor or a removal of an unregistered channel; otherwise the mirror holds again and the kernel refuses nothing |
| `Poller.UpdateMirrors` | poller.go:73-98 | updateChannel restores the mirror after the mask changed, or panics exactly then |
| `Poller.RemoveMirrors` | poller.go:100-110 | removeChannel leaves the descriptor in neither map nor interest set |
| `Poller.PollerMirrorsKernel` | poller.go:73-122 | after any calls: Add iff watched with exactly its events, Del iff mapped and not watched, New iff neither; every epoll_ctl was legal |
| `Poller.CloseMirrorsIff` | tcp_server.go:118-124 | closing a descriptor keeps the mirror iff no watched channel holds it |
| `Poller.CallShape` | channel.go:61-91 | a call changes only its own channel, and how its registration changes |
| `Poller.MaskBits` | channel.go:61-83 | what each operation does to the interests in reading and writing |
| `Poller.MaskValues` | channel.go:13-17 | the masks are those of the poll constants |
| `Poller.MaskExact` | channel.go:61-69 | asking for reading asks for both of its events; asking for nothing leaves none |
| `Poller.DispatchMeans` | channel.go:93-121 | which callbacks are called, bit by bit, and in the order close, error, read, write |
| `Poller.NoInterestNoCallback` | channel.go:93-121 | a channel that does not ask for reading (writing) gets no read (write) callback |
| `Poller.Channel.constructor` | channel.go:33-43 | a new channel has no events and is not registered |
| `Poller.Epoll.Open` | channel.go:33-43 | adds an unregistered channel |
| `Poller.Epoll.Ctl` | poller.go:112-122 | an epoll_ctl on the interest set |
| `Poller.Epoll.UpdateChannel` | poller.go:73-98 | takes the update step; fails exactly where an assertion fails |
| `Poller.Epoll.ChangeEvents` | channel.go:61-91 | the four operations change the mask and then update |
| `Poller.Epoll.RemoveChannel` | poller.go:100-110 | takes the removal step; fails exactly where an assertion fails |
| `Lifecycle.NothingElsePanics` | tcp_server.go:81-125 | over every interleaving of loops, kernel and users, with any reuse of descriptors, no assertion of server, connections or pollers fails and no epoll_ctl is refused; a run panics iff a server without a connection callback destroys a connection |
| `Lifecycle.NilCallPanics` | tcp_conn.go:203-209 | connectDestroyed without a connection callback panics |
| `Lifecycle.RelayInOrder` | tcp_conn.go:194-260 | established, closed, removed, destroyed: in order, each at most once; the state agrees; connMap holds exactly the connections not removed |
| `Lifecycle.RelayNeverStalls` | tcp_server.go:104-125 | a connection between two stages has its next task waiting on the right loop |
| `Lifecycle.StateNeverGoesBack` | tcp_conn.go:174-209 | over any stretch of a run the state only moves forward and loop and descriptor stay |
| `Lifecycle.FdReuseIsSafe` | tcp_server.go:115-125 | a channel map holds only open descriptors, each for the one live connection that owns it, and no descriptor is held by two loops |
| `Lifecycle.OpenConnIsWatched` | tcp_conn.go:194-201 | from establishment to close the kernel watches the connection for reading |
| `Lifecycle.ReportDecides` | tcp_conn.go:211-260 | in every run a report closes its connection iff it is readable and the read finds the end of the stream, and hands it to the boss; otherwise only a draining write ends the interest in writing |
| `Lifecycle.WriteIsWatched` | tcp_conn.go:143-148 | a write that leaves bytes behind makes the channel ask for writing |
| `Lifecycle.ShutdownHitsOwnIff` | tcp_conn.go:174-192 | when the half-close queued by a call of ShutdownWrite runs, its descriptor is the connection's own iff the connection was in connMap at the call |
| `Lifecycle.OwnsItsFdIff` | tcp_server.go:115-125 | a connection's descriptor number is open and its own iff it is not destroyed |
| `Lifecycle.QueueMoves` | eventloop.go:71-96 | a step takes at most the head off a loop's queue and appends at most one task: which one |
| `Lifecycle.EarlyOrLate` | tcp_server.go:109-125 | after a ShutdownWrite the half-close stays in front of the destruction, or behind it, for the rest of the run |
| `Lifecycle.LateShutdownHitsReusedFd` | tcp_conn.go:174-192 | a run of any server that leaves the half-close of a destroyed connection about to hit a new one |
| `Lifecycle.StepKeepsInv` | tcp_server.go:81-125 | every step keeps the whole invariant |
| `Lifecycle.RunKeepsInv` | tcp_server.go:81-125 | the invariant at every point of every run as long as the process lives |
| `Lifecycle.RunKeepsOwned` | tcp_server.go:115-125 | every open descriptor belongs to somebody else or to a live connection |
| `Lifecycle.EstablishStep` | tcp_conn.go:194-201 | connectEstablished keeps the invariant: its assertion holds and its descriptor is free |
| `Lifecycle.CloseStep` | tcp_conn.go:256-260 | handleClose keeps the invariant and hands over to the boss |
| `Lifecycle.RemoveStep` | tcp_server.go:115-118 | removeConnInLoop keeps the invariant and hands back to the worker |
| `Lifecycle.DestroyStep` | tcp_conn.go:203-209 | with a connection callback, connectDestroyed and the close keep the invariant, the re-add of the second disableAll included |
| `Lifecycle.AcceptStep` | tcp_server.go:81-107 | newConn keeps the invariant for any unused descriptor and any loop |
| `Lifecycle.HandleStep` | channel.go:93-121 | handling one report keeps the invariant although other handlers ran since the poll |
| `Lifecycle.PollStep` | poller.go:41-71 | any answer of epoll that its registrations allow keeps the invariant |
| `ByteBuffer.WriteIsCompleteIff` | buffer.go:67-122 | a write is complete iff Writable >= n, or Writable + Readable < n, or Writable + readIndex >= n |
| `ByteBuffer.WriteToEmptyIsComplete` | buffer.go:108-122 | an empty buffer never truncates |
| `ByteBuffer.WriteLeavesData` | buffer.go:67-72 | a write of something leaves something readable |
| `ByteBuffer.TwoWritesCanLoseBytes` | buffer.go:114-122 | 1000 bytes and then 100 into a fresh buffer keep 24 of the latter |
| `ByteBuffer.ReadInKeepsPrefix` | buffer.go:22-41 | ReadFd keeps a prefix of what arrived, all of it iff the overflow meets the matching law |
| `ByteBuffer.RepairedEnsured` | buffer.go:108-122 | with the guard repaired there is always room and the data is unchanged |
| `ByteBuffer.RepairedIsTotal` | buffer.go:67-72 | with the guard repaired, copying what fits copies everything: a write is a total append |
| `ByteBuffer.RepairAgreesIff` | buffer.go:114-122 | code and repair agree exactly where the code does not truncate |
| `ByteBuffer.IndexFrom` | buffer.go:64-64 | the first occurrence at or after a position, or -1 when there is none |
| `ByteBuffer.SearchIsStable` | buffer.go:60-65 | the first occurrence does not move when bytes arrive behind it |
| `ByteBuffer.Buffer.constructor` | buffer.go:14-20 | empty, 1024 bytes long |
| `ByteBuffer.Buffer.ReadableBytes` | buffer.go:87-89 | the length of the contents |
| `ByteBuffer.Buffer.WritableBytes` | buffer.go:91-93 | the room behind the contents |
| `ByteBuffer.Buffer.Peek` | buffer.go:95-97 | the contents |
| `ByteBuffer.Shifted` | buffer.go:99-101 | moving the read index either way keeps the bytes; forwards drops a prefix, backwards makes consumed bytes readable again |
| `ByteBuffer.Buffer.Advance` | buffer.go:99-101 | for any n: the buffer stays usable iff the index stays between 0 and the write index, and then the boundary has moved by n |
| `ByteBuffer.Buffer.Reset` | buffer.go:103-106 | for any n: usable iff the slice has n bytes, which then are the contents |
| `ByteBuffer.Buffer.Next` | buffer.go:43-52 | splits the contents into what it returns and what stays |
| `ByteBuffer.Buffer.Read` | buffer.go:54-58 | moves a prefix of the contents into the slice given and leaves the rest of that slice alone |
| `ByteBuffer.Buffer.Search` | buffer.go:60-65 | finds the first occurrence iff there is one |
| `ByteBuffer.Buffer.MakeSpace` | buffer.go:114-122 | overlapping compaction and growth keep the contents |
| `ByteBuffer.Buffer.EnsureWritableBytes` | buffer.go:108-112 | keeps the contents |
| `ByteBuffer.Buffer.CopyIn` | buffer.go:69-70 | appends what fits behind the write index |
| `ByteBuffer.Buffer.Write` | buffer.go:67-72 | appends exactly the prefix whose length it returns |
| `ByteBuffer.Buffer.ReadFd` | buffer.go:22-41 | takes the readv step |
| `ByteBuffer.Buffer.Shrink` | buffer.go:78-85 | for any reserve: panics iff the new length is negative, is usable iff the reserve is not, and then keeps the contents |
| `Outbound.StreamIntegrity` | tcp_conn.go:119-153 | in every run, wire ++ buffered equals the accepted bytes in call order; until close, writing is watched iff bytes are buffered, and reading from the establishment on |
| `Outbound.HalfCloseIsClean` | tcp_conn.go:174-192 | until close, SHUT_WR is issued only with an empty buffer |
| `Outbound.HalfCloseComes` | tcp_conn.go:174-192 | in every run, until close, a stream that was shut down has issued SHUT_WR, has the task that will queued, or has bytes left that the write handler is asked to send |
| `Outbound.DrainingShuts` | tcp_conn.go:237-247 | the write handler that sends the last byte ends the interest in writing and issues SHUT_WR iff the stream was shut down |
| `Outbound.RefusedWriteLeaves` | tcp_conn.go:126-152 | a write refused by the state or by a failed direct attempt changes nothing |
| `Outbound.HalfCloseCutsBytesIff` | tcp_conn.go:185-192 | exactly when a queued half-close cuts off buffered bytes |
| `Outbound.HalfCloseMayCutBytes` | tcp_conn.go:174-260 | a run in which it cuts off any given bytes |
| `Outbound.ShutdownWriteIsFinal` | tcp_conn.go:174-179 | after a ShutdownWrite on a connected stream no byte is accepted and no second half-close is queued, for the rest of the run |
| `Outbound.NothingAfterShutdown` | tcp_conn.go:185-254 | no byte reaches the wire after SHUT_WR, closed or not |
| `Outbound.WriteDropsIff` | tcp_conn.go:143-148 | a write takes all its bytes unless the buffer truncates, stated on the indices |
| `Outbound.WouldBlockHarms` | tcp_conn.go:126-144 | what a would-block answer does and when: a direct write panics; the write handler makes a byte that was sent readable again in front of the rest, or the index negative if nothing was consumed |
| `Outbound.HandlerMayRepeatByte` | tcp_conn.go:227-238 | a run in which the write handler repeats a byte |
| `Outbound.StepKeepsInv` | tcp_conn.go:119-260 | every step keeps the stream invariant |
| `Outbound.RunKeepsInv` | tcp_conn.go:119-260 | the stream invariant at every point of every run |
| `Outbound.TcpConn.constructor` | tcp_conn.go:42-57 | a fresh stream |
| `Outbound.TcpConn.Write` | tcp_conn.go:119-153 | takes the write step; what it reports as sent is what reached the wire; when it reports an error, and that it then has changed nothing |
| `Outbound.TcpConn.BufferRest` | tcp_conn.go:143-148 | buffers the rest as far as the buffer takes it and asks for writing |
| `Outbound.TcpConn.ShutdownWriteTask` | tcp_conn.go:185-192 | takes the half-close step |
| `Outbound.TcpConn.HandleWrite` | tcp_conn.go:227-254 | takes the write-handler step, with the deferred half-close and with a count of -1; the buffer stays usable iff the index did not become negative |
| `Connector.NothingPanics` | connector.go:76-148 | in every run with one attempt at a time, whatever the kernel reports, no poller assertion fails, no epoll_ctl is refused and no nil channel is used |
| `Connector.FdsAreConserved` | connector.go:76-160 | every descriptor opened is open, registered for writing and held by the connecting channel, or was closed once, or was handed over once, also when one event fires both callbacks |
| `Connector.ClearNeverHitsNewer` | connector.go:142-148 | the queued clear never takes the channel of a newer attempt |
| `Connector.HandOverIsUnmapped` | connector.go:110-125 | a descriptor handed over is open and in no channel map |
| `Connector.BackoffDoubles` | connector.go:150-160 | the recurrence of the delay is 500 ms doubled k times, at most 30 s |
| `Connector.EventDecides` | connector.go:110-140 | what one report makes of an attempt, bit by bit: POLLERR or POLLNVAL closes it whatever else is reported; it is handed over iff neither is set, POLLOUT is, SO_ERROR is clear and the connector is wanted; a failed one gets exactly one retry timer iff it is wanted |
| `Connector.StartDecides` | connector.go:68-108 | what start makes of each answer of connect: a watched attempt, one retry timer or nothing more; nothing at all when the connector is not wanted |
| `Connector.RetryNeverLost` | connector.go:150-160 | in every run a scheduled retry waits in the task queue or the timer queue until it fires or the connector is stopped |
| `Connector.StoppedOpensNothing` | connector.go:68-74 | in every run no socket is opened while the connector is not wanted |
| `Connector.StoppedHasNoTimer` | connector.go:54-59 | in every run a connector that is not wanted has no retry timer once the cancelling has run |
| `Connector.RetryDelaysDouble` | connector.go:150-160 | in every run the k-th retry since the last reset waits that long |
| `Connector.RestartIsSafeIff` | connector.go:61-66 | from every sound state without an attempt, no sequence of steps after a restart panics iff no clear is queued or the attempt is not watched |
| `Connector.DoomedPanics` | connector.go:142-148 | the failing steps: the queue up to the first clear, then a report of the channel |
| `Connector.HandOverLeavesClear` | connector.go:110-125 | a run from the beginning to a hand-over at which a clear is queued |
| `Connector.StepKeepsInv` | connector.go:49-160 | every step keeps the invariant |
| `Connector.RunKeepsInv` | connector.go:49-160 | the invariant at every point of every run |
| `Connector.WatchKeepsInv` | connector.go:102-108 | connecting cannot panic on an unused descriptor and leaves its new channel as the only one registered |
| `Connector.StartKeepsInv` | connector.go:68-100 | connect0 keeps the invariant for every answer |
| `Connector.RetryKeepsInv` | connector.go:150-160 | retry closes the one open socket, queues one timer and keeps the invariant |
| `Connector.ReleaseIs` | connector.go:142-148 | removeAndResetChannel of an attempt under way cannot panic and leaves the socket open, unregistered and neither closed nor handed over |
| `Connector.HandleErrorKeepsInv` | connector.go:132-140 | handleError keeps the invariant and leaves no attempt |
| `Connector.HandleWriteKeepsInv` | connector.go:110-130 | handleWrite keeps the invariant and leaves no attempt |
| `Connector.StopKeepsInv` | connector.go:54-59 | Stop keeps the invariant, cancelling a timer or not |
| `Connector.OtherCallKeepsInv` | poller.go:73-110 | what the rest of the process does with its own channels keeps the invariant |
| `Connector.TcpConnector.constructor` | connector.go:36-46 | on an empty poller, the initial state |
| `Connector.TcpConnector.ConnectOnce` | connector.go:76-100 | which errors of connect are waited for, retried and given up, and the step taken for each |
| `Connector.TcpConnector.StartInLoop` | connector.go:68-74 | connects only while wanted; with an unused descriptor a quiet sound connector stays sound and does not panic |
| `Connector.TcpConnector.RemoveAndResetChannel` | connector.go:142-148 | panics iff the channel is nil or the poller does; in a sound state with an attempt it does not, and the descriptor is open and in neither channel map nor interest set |
| `Connector.TcpConnector.OnErrorEvent` | connector.go:132-140 | a sound connector stays sound, has no attempt left and has closed the descriptor of the one it had |
| `Connector.TcpConnector.OnWriteEvent` | connector.go:110-130 | a sound connector stays sound and has no attempt left; the descriptor is handed over, open and unmapped, or closed |
| `Connector.TcpConnector.OnEvent` | channel.go:105-119 | the error callback before the write callback; a sound connector stays sound, and the descriptor is handed over iff no error bit is set, POLLOUT is, SO_ERROR is clear and it is wanted |
| `Connector.TcpConnector.RestartNow` | connector.go:61-66 | a quiet sound connector without a queued clear stays sound |
| `Session.FragmentationIndependence` | examples/memcached/server/session.go:63-148 | feeding a then b gives the same lines, items, replies, store, session fields, counts and unread suffix as feeding a ++ b; a panic ends both or neither |
| `Session.AnySplitGivesTheSame` | examples/memcached/server/session.go:63-148 | every split of a stream into chunks gives what the whole gives |
| `Session.SessionIsSound` | examples/memcached/server/session.go:63-284 | in every run, whatever other sessions do to the store between calls, the session invariant holds and the session has died iff its next unread line is bad or the item just completed is fatal |
| `Session.CompletedFailsIff` | examples/memcached/server/session.go:112-133 | a full item is fatal iff it has fewer than two bytes, or ends in CRLF and has a negative length or is to be joined to a key that is there |
| `Session.AppendKillsSession` | examples/memcached/server/session.go:112-117 | a set and an append, all well-formed, after which the session is dead |
| `Session.TurnKeepsInv` | examples/memcached/server/session.go:66-98 | a turn of the loop fails iff it meets a bad line, which it leaves unread, or completes a fatal item; the protocol stays Ascii and bytesToDiscard 0 |
| `Session.DrainKeepsInv` | examples/memcached/server/session.go:63-101 | so does the whole loop |
| `Session.Step` | examples/memcached/server/session.go:65-99 | every turn consumes input or returns to NewCommand, so the loop ends |
| `Session.StepCommutes` | examples/memcached/server/session.go:66-98 | a turn that does not run out of input is unaffected by what follows |
| `Session.PartialResumes` | examples/memcached/server/session.go:103-148 | a turn that runs out of input, resumed, is one turn over both parts |
| `Session.DrainInPieces` | examples/memcached/server/session.go:65-99 | the loop may be interrupted anywhere |
| `Session.DiscardSkipsNothing` | examples/memcached/server/session.go:136-148 | the value of an oversized object is not skipped |
| `Session.LineIsTaken` | examples/memcached/server/session.go:77-84 | a line is taken up to its CRLF and without it, counted and recorded; what follows stays |
| `Session.LineActsOnStore` | examples/memcached/server/session.go:197-299 | after a delete, or an object that is too large, Get finds nothing under the key; no other key and no other line touches the store |
| `Session.LineActsOnSession` | examples/memcached/server/session.go:150-284 | only a storage command leaves a request open, with its command, policy and an empty item |
| `Session.ItemActs` | examples/memcached/server/session.go:112-133 | a bad chunk leaves the store alone; what the store accepts is what its slot then holds, under a new token |
| `Session.BytesAreCounted` | examples/memcached/server/session.go:64-100 | every byte that has arrived is counted as read or still unread |
| `Session.RequestsAreCounted` | examples/memcached/server/session.go:156-156 | in every run the requests counted are the lines processed |
| `Session.EmptyLineBlocks` | examples/memcached/server/session.go:77-90 | an empty line is never consumed, whatever follows |
| `Session.UnreadLineIff` | examples/memcached/server/session.go:77-90 | in every run a live session waiting for a command holds a complete line iff its input begins with an empty one |
| `Session.ItemSwallowsKeyLength` | examples/memcached/server/session.go:103-134 | an item consumes keylen + valuelen bytes and its key is their beginning |
| `Session.ClientSession.constructor` | examples/memcached/server/session.go:47-61 | a fresh session |
| `Session.ClientSession.ResetRequest` | examples/memcached/server/session.go:213-219 | clears the request |
| `Session.ClientSession.StartItem` | examples/memcached/server/session.go:279-283 | opens an item of keylen + valuelen bytes |
| `Session.ClientSession.ProcessRequest` | examples/memcached/server/session.go:150-219 | takes the line step; fails exactly where the code panics |
| `Session.ClientSession.Perform` | examples/memcached/server/session.go:172-211 | what each outcome does to session and store |
| `Session.ClientSession.EraseKey` | examples/memcached/server/session.go:275-299 | deletes the key from the store |
| `Session.ClientSession.TakeLine` | examples/memcached/server/session.go:78-84 | processes and then consumes a line |
| `Session.ClientSession.FillItem` | examples/memcached/server/session.go:106-111 | moves what is needed and there from the buffer into the item |
| `Session.ClientSession.FinishItem` | examples/memcached/server/session.go:112-133 | the CRLF test, the store and the reply for a full item; fails exactly where the code panics |
| `Session.ClientSession.ReceiveValue` | examples/memcached/server/session.go:103-134 | takes the receive step, the store included |
| `Session.ClientSession.DiscardBytes` | examples/memcached/server/session.go:136-148 | takes the discard step |
| `Session.ClientSession.Turn` | examples/memcached/server/session.go:65-99 | takes one turn |
| `Session.ClientSession.OnMsg` | examples/memcached/server/session.go:63-101 | terminates and does what the specification of the loop does, count included; asks for a half-close iff more than 1024 bytes without a line are left |
| `Store.StoreRefines` | examples/memcached/server/memcached_server.go:86-146 | a store of a well-hashed item acts as on one flat map, reply included |
| `Store.GetRefines` | examples/memcached/server/memcached_server.go:148-156 | a get finds what the flat map holds |
| `Store.DeleteRefines` | examples/memcached/server/memcached_server.go:158-170 | a delete acts as on the flat map, reply included |
| `Store.SlotsRefineFlatMap` | examples/memcached/server/memcached_server.go:86-170 | in every run the slots refine the flat map |
| `Store.SetIsVisibleIff` | examples/memcached/server/memcached_server.go:86-98 | a Set is found under its key iff its hash and its key's hash share a slot |
| `Store.StoreSucceedsIff` | examples/memcached/server/memcached_server.go:93-114 | in every run Set succeeds always, Add iff the key is absent, Replace iff it is present, and the reply says which |
| `Store.StoreIsSeen` | examples/memcached/server/memcached_server.go:86-146 | what a successful store put is what the next Get finds, under a new token; a refused one changes nothing; no other key is concerned |
| `Store.GetFindsIff` | examples/memcached/server/memcached_server.go:148-156 | in every run Get finds something iff the key was stored and not deleted since |
| `Store.DeleteIsSeen` | examples/memcached/server/memcached_server.go:158-170 | a delete reports whether the key was there, and leaves it out and every other key alone |
| `Store.JoinIsSeen` | examples/memcached/server/memcached_server.go:115-132 | where append and prepend do not panic: refused without an old item, otherwise the two values with the inner CRLF cut out |
| `Store.TokensAreFresh` | examples/memcached/server/memcached_server.go:95-135 | below 2^64 issued tokens are unique and increasing |
| `Store.CasSucceedsIff` | examples/memcached/server/memcached_server.go:133-140 | in every run a Cas succeeds iff its token was issued by a store to that key and nothing was stored or deleted under it since |
| `Store.LastOnMeaning` | examples/memcached/server/memcached_server.go:133-140 | the last change of a key, computed from the log, is the current token |
| `Store.StepKeepsInv` | examples/memcached/server/memcached_server.go:86-170 | every operation keeps keys in their slots, tokens in agreement with the log and increasing |
| `Store.JoinPanicsIff` | examples/memcached/server/memcached_server.go:115-128 | as coded, append and prepend panic for every non-empty key or a tail that is not CRLF |
| `Store.RepairedJoinConcatenates` | examples/memcached/server/memcached_server.go:115-128 | with the key copied they join the values under the same key |
| `Store.StorePanicsIff` | examples/memcached/server/memcached_server.go:86-146 | exactly which calls of Store panic, over every policy |
| `Store.NewDraft` | examples/memcached/server/item.go:34-51 | a new item needs keylen + valuelen bytes |
| `Store.RepairedDraft` | examples/memcached/server/item.go:34-51 | with the key copied it needs valuelen bytes |
| `Store.Filled` | examples/memcached/server/item.go:57-60 | appending extends the received prefix by exactly the bytes given |
| `Store.ItemBuffer.constructor` | examples/memcached/server/item.go:34-47 | nothing received, the key not copied |
| `Store.ItemBuffer.NeedBytes` | examples/memcached/server/item.go:49-51 | the bytes still missing |
| `Store.ItemBuffer.Append` | examples/memcached/server/item.go:57-60 | fills as specified, in place |
| `Store.ItemBuffer.EndWithCRLF` | examples/memcached/server/item.go:62-64 | panics iff fewer than two bytes were received; otherwise tells whether they end in CRLF |
| `Store.ItemBuffer.Complete` | examples/memcached/server/memcached_server.go:119-127 | the two appends and the two assertions of a join |
| `Store.Memcached.constructor` | examples/memcached/server/memcached_server.go:56-71 | 1024 empty slots |
| `Store.Memcached.NextCas` | examples/memcached/server/memcached_server.go:95-95 | the next token, modulo 2^64 |
| `Store.Memcached.Put` | examples/memcached/server/memcached_server.go:95-97 | stores under a new token |
| `Store.Memcached.Join` | examples/memcached/server/memcached_server.go:117-127 | builds the joined item on a new item, panics exactly as specified |
| `Store.Memcached.StoreJoined` | examples/memcached/server/memcached_server.go:115-132 | the append and prepend branch as specified, panics included |
| `Store.Memcached.Store` | examples/memcached/server/memcached_server.go:86-146 | every policy as specified, panics included |
| `Store.Memcached.Get` | examples/memcached/server/memcached_server.go:148-156 | as specified |
| `Store.Memcached.Delete` | examples/memcached/server/memcached_server.go:158-170 | as specified |
| `Decimal.DecimalRoundTrip` | socket.go:111-126 | parsing the printed form gives the value back; no leading zero |
| `Decimal.DecimalIsCanonical` | socket.go:111-126 | a digit string without leading zero is the printed form of its value |
| `Decimal.TwentyDigitsSuffice` | socket.go:115-115 | twenty bytes hold every 64-bit value |
| `Decimal.WrappedDigit` | socket.go:119-119 | the wrapping sum still yields the right digit |
| `Decimal.Itod` | tcp_server.go:173-187 | prints the decimal form |
| `Decimal.Uint2DecimalStr` | socket.go:111-126 | prints the decimal form within twenty bytes |
| `Decimal.PrintersAgree` | tcp_server.go:173-187 | both printers return the same string for every value, and it parses back |

## Left out

- epoll, eventfd, timerfd and socket calls are an abstract kernel: an interest map, a counter, a one-shot deadline, a supply of unused descriptors and arbitrary counts within range.
- acceptor.go and address resolution: an accept yields any descriptor that is not open.
- eventloop_engine.go and eventloop_engine_group.go: the loop of a new connection is any loop.
- tcp_client.go: it adds no hard property to the connector.
- Logging, error texts, onWriteComplete, TCP options and the `evtHandling` flag.
- Races on fields without synchronisation, such as the state of a connection: handlers, tasks and calls are atomic steps, except in `EventLoop`, where every lock operation is a step.
- `EventLoop` and `Lifecycle` are step systems on values, because they are about interleavings of threads; there is no class for the loop or for the server's own map.
- The channels for a loop's own eventfd and timerfd and for the listening socket: registered once, they are among the descriptors of others in `Lifecycle`.
- Wakeups of a loop that has left `Loop` and closed its eventfd.
- `AsyncWrite`: a queued call of `Write`.
- Two outstanding starts of a connector, or a start while it is connecting: the code does not guard against them, and `Connector` excludes them.
- The half-close for more than 1024 bytes without a line end is part of OnMsg, but not of the independence of fragmentation, on which it depends.
- `bytes.Fields`, `strconv` and the length checks: a request line is classified by an arbitrary function of the line.
- Store accesses of other sessions during one call of OnMsg: a call is one step of the store.
- Replies, `get` output, `ResetKey` and the needle: they follow from the lines and items in the log.
- CRC64: the hash is an arbitrary function of the key.
- The Binary protocol: a session starts as Ascii and stays so, which is proved.
- `Session.ClientSession.OnMsg`: asks for the session invariant, which every run from a new session keeps; with the Binary protocol the loop of the code would not end.
- `ByteBuffer.Buffer.Next` and `ByteBuffer.Buffer.Peek`: return copies, so what later writes do to a slice that is still held is not modelled.
- `Store.Memcached.Store`: items are values, so a stored item shared with a session is not modelled; the code gives its reference up with the request.
- `Outbound.StreamIntegrity` and `Outbound.HalfCloseIsClean`: hold until a count of -1 is used; what it does then is `Outbound.WouldBlockHarms`, and runs end there.
- `Lifecycle.RelayInOrder` and the other results over runs speak of the states before the process panics, which `Lifecycle.NothingElsePanics` describes.
- `Store.TokensAreFresh`: says nothing after 2^64 stores, when the counter has wrapped.
- `bytesRead` and `reqProcessed` are unbounded, and durations do not saturate.
