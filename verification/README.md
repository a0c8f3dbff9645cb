# soc-workshop drivers and debug link server: a Dafny model

This project models the concurrent and buffer-handling core of the soc-workshop
software and proves what that code promises over all inputs, all interleavings
and all reachable states. It has five parts.

- **DMA copy driver** (`MsgDma`, `DmaRing`, `DmaAbandon`,
  `DmaAbandonRead`, `DmaSpec`, `DmaDriver`, `DmaSession`, `DmaLaws`).
  A character device copies a 1 MiB buffer through a four-slot ring of 1024-byte
  blocks, in a streaming and a coherent variant. The DMA engine is a machine that
  moves single bytes and may take any number of steps between any two actions of
  the processor. Each call is proved to refine a plain operation on one byte array.
- **Debug link server** (`MmlinkLines`, `MmlinkSpec`, `MmlinkRuns`, `MmlinkFeeds`,
  `MmlinkLaws`, `MmlinkDriverErrors`, `MmlinkConnection`, `MmlinkServer`). A select loop serves two connection slots, edits
  its receive buffers in place, and passes bytes between a host socket and a driver,
  both of which may take only part. One round is a function of what the outside
  answers; the classes are proved to do the same, and the results are about every run.
- **FIFO device** (`FifoDevice`, `FifoTrace`). Any number of readers and writers share a 256-word
  FIFO under a semaphore that they drop while they sleep.
- **Validator handshake** (`Validator`, `ValidatorReplies`, `ValidatorTrace`,
  `ValidatorTimeout`). ARM callers and the Nios
  pass an ownership flag, with timeouts and late answers; for the signing and
  authenticating devices two semaphores pass one token between writes and reads.
- **Interval timer** (`IntervalTimer`, `TimerRace`, `TimerTrace`). An ioctl reprograms a running
  timer while the interrupt handler measures delays under the same spin lock.

Code that one thread runs is a class or a method with loops, proved against a
specification. Code whose difficulty is the interleaving of threads or hardware is
a machine of atomic steps, and its results hold for every run from the initial state.
The `Trace` and `Feeds` modules say what a run has done as a function of its steps or
of the outside's answers alone, and prove that the state agrees.

## What turned out false

Where the code does not do what one would expect, the model keeps the code and the
project proves when the expectation does hold.

- A read of no bytes still submits one DMA descriptor. A read that returns normally
  leaves the device ready if and only if it was not such a read (`CoRead`, `StRead`).
- A write that is interrupted leaves descriptors behind. If it had submitted k blocks,
  the fill-level guard of the next write through the same page protects the slot of
  that write's block j in every run if and only if k % 4 <= j, so its first block if and
  only if k is a multiple of 4 (`GuardProtectsNextCallIff`). A write through the other
  device's page is always protected (`OtherPageIsProtected`).
- After a read that had submitted k blocks (an empty one counts as one,
  `EmptyReadLeavesOneBlock`), the guard protects the slot of block j of the next write
  through the same page if and only if not j < k % 4 <= j + 2 (`GuardAfterReadIff`).
- `get_data_connection` looks at the first `m_num_connections` slots, so a round serves
  the data connection if and only if that is not in slot 1 with slot 0 closed
  (`ServedIffNotMissed`). Two clients reach that state (`MissedIsReachable`), and the
  buffered bytes then wait until another client is accepted (`MissedWaitsOn`,
  `AcceptRescues`). In a round that does serve it, they are offered to the driver
  (`ServedBytesAreOffered`).
- From a state with a served data connection, some continuation gets a byte to the host
  if and only if the host is not marked blocked with `m_t2h_pending` clear
  (`HostIsReachedIffNotCutOff`). One client reaches that state (`CutOffIsReachable`). A
  round brings it about in exactly two ways: a first send that takes nothing while
  nothing is pending, or a new data connection with nothing to send whose predecessor
  left its host blocked with bytes pending (`CutOffStepIff`).
- A driver write error other than EAGAIN is added to the byte count. The bytes dropped
  from the buffer are those the driver took if and only if no such error comes among its
  answers before all is taken or nothing more is (`CountIsRightIff`).
- A stream fills the 3000-byte buffer with one open line at some cut if and only if it
  has a line of 3000 bytes or more (`FillsIffLongLine`). In every reachable state a
  management connection is jammed if and only if it has received such a line, and a
  client that sends one is heard no further than into it (`JammedIffLongLine`). Any 3000
  ordinary bytes get there (`JammedIsReachable`), and the connection then never changes
  again (`JammedForever`).
- A copy fault loses a FIFO wake-up if and only if it leaves a ready sleeper of the other
  side that nobody else will wake (`FaultKeepsIff`), and a run never loses one if and only
  if it has no such fault (`WakeupsKeptIff`). A writer's fault before its first word is
  never one (`EarlyWriterFaultIsHarmless`); what makes any other fault one is
  `WriterFaultStrandsIff` and `ReaderFaultStrandsIff`. A FIFO call with count 0 does not return
  min(count, available) bytes, and only such a call (`Conservation`).
- The timeout comparison takes seconds and microseconds apart. It agrees with the
  intended one exactly when the deadline is on a whole second, and never fires early
  (`ExactOnWholeSeconds`, `NeverEarly`).
- From the opening of a signing or authenticating device to its release, the semaphores
  and the calls inside hold exactly one token if and only if no call has left with an
  error past its semaphore (`TokenKeptIffNoErrorExit`). After such an exit nothing is
  written or delivered until the release (`LostTokenStaysLost`).
- An interval change that finds a timeout pending can finish if and only if the
  interrupt was dispatched before the timer was stopped (`WaitEndsIffDispatched`,
  `ChangeEndsIff`).
- An interval n reads back as n exactly when rate % n < rate / n (`ReadBack`,
  `QueryReturnsSetInterval`). What reads back is always the number of timeouts in a second
  of the clock (`QueryCountsTimeouts`).

## Model

| member | source | states |
|---|---|---|
| MsgDma.StepKeeps | sw_src/driver_modules/demo_module_09.c:204-260 | each action of the DMA engine keeps the pipeline invariant (which bytes are in the ring, in flight and at the target) and uses up exactly one unit of work |
| MsgDma.RunKeeps | sw_src/driver_modules/demo_module_09.c:204-285 | any run of the engine keeps the invariant, only finishes descriptors, and its length is the work done |
| MsgDma.Progress | sw_src/driver_modules/demo_module_09.c:205-214 | while the engine is busy some action is enabled, so the driver's waits end |
| DmaRing.SlotQuiet | sw_src/driver_modules/demo_module_09.c:204-260 | a ring slot is touched by no unfinished descriptor if and only if every submitted block of that slot is finished |
| DmaRing.NextSlotQuiet | sw_src/driver_modules/demo_module_09.c:204-260 | the slot about to be filled is untouched if and only if the block four before it is finished, and a fill level of at most two guarantees it |
| DmaRing.OldestBlockReady | sw_src/driver_modules/demo_module_09.c:343-444 | under the read loop's guard, or when the engine is not busy for the last block, block u is finished, its slot holds exactly block u, and no descriptor will touch it |
| DmaRing.StageKeeps | sw_src/driver_modules/demo_module_09.c:222-238 | filling an untouched slot with the next block keeps the invariant with one more staged block |
| DmaRing.SubmitKeeps | sw_src/driver_modules/demo_module_09.c:240-252 | submitting the staged block's descriptor keeps the invariant |
| DmaRing.Complete | sw_src/driver_modules/demo_module_09.c:262-269 | when all blocks are submitted and the engine is not busy, it is idle and the target holds all the data with every other byte unchanged |
| DmaDriver.Device.constructor | sw_src/driver_modules/demo_module_09.c:820-842 | a device with disjoint ring pages and buffer starts ready: idle engine, nothing mapped |
| DmaDriver.Device.GetFillLevel | sw_src/driver_modules/demo_module_09.c:122-144 | the level computed from one register read is the larger of the two queue levels, with the engine free to go on meanwhile |
| DmaDriver.Device.GetBusy | sw_src/driver_modules/demo_module_09.c:146-153 | the busy bit tells whether an unfinished descriptor exists |
| DmaDriver.Device.WaitFill | sw_src/driver_modules/demo_module_09.c:205-214 | the wait terminates, and unless interrupted ends with a fill level within the limit |
| DmaDriver.Device.WaitIdle | sw_src/driver_modules/demo_module_09.c:262-269 | the wait terminates, and unless interrupted ends with the engine not busy |
| DmaDriver.Device.MapToDevice | sw_src/driver_modules/demo_module_09.c:230-238 | mapping makes the page's block visible to the engine in the slot, which must not be mapped or in use |
| DmaDriver.Device.UnmapToDevice | sw_src/driver_modules/demo_module_09.c:216-220 | only a live mapping that no unfinished descriptor uses is unmapped, and it is then no longer live |
| DmaDriver.Device.UnmapFromDevice | sw_src/driver_modules/demo_module_09.c:423-431 | unmapping the oldest block gives the processor exactly that block |
| DmaDriver.HandlesShift | sw_src/driver_modules/demo_module_09.c:216-243 | the four-deep shift of mapping handles keeps the live mappings equal to the last four blocks' slots, and the one shifted out is the slot to be reused |
| DmaDriver.Delivered | sw_src/driver_modules/demo_module_09.c:262-290 | a completed write leaves the buffer as it was with exactly the written window replaced |
| DmaDriver.Abandoned | sw_src/driver_modules/demo_module_09.c:205-228 | an abandoned write changes bytes of the window only, each to its new value |
| DmaDriver.Untouched | sw_src/driver_modules/demo_module_09.c:343-450 | at every moment of a read the buffer is unchanged |
| DmaAbandon.HistoryKeeps | sw_src/driver_modules/demo_module_09.c:204-260 | wherever a write loop that started on an idle engine is interrupted, the pipeline invariant holds with as many blocks as it has submitted |
| DmaAbandon.GuardSuffices | sw_src/driver_modules/demo_module_09.c:204-228 | after a write abandoned with k blocks, a fill level of at most two leaves the slot of block j of the next write untouched whenever k % 4 <= j |
| DmaAbandon.GuardFails | sw_src/driver_modules/demo_module_09.c:204-228 | for every k and j with k % 4 > j, a run of both writes passes the guard while an abandoned block still uses that slot |
| DmaAbandon.GuardProtectsNextCallIff | sw_src/driver_modules/demo_module_09.c:204-228 | over every interrupted exit with k blocks and every run of the next write through the same page, the guard protects the slot of its block j if and only if k % 4 <= j |
| DmaAbandon.OtherPageIsProtected | sw_src/driver_modules/demo_module_09.c:509-527 | a write through the other page is protected whatever was left over |
| DmaAbandonRead.ReadHistoryKeeps | sw_src/driver_modules/demo_module_09.c:343-444 | wherever a read loop that started on an idle engine is interrupted, the pipeline invariant holds with as many blocks as it has submitted |
| DmaAbandonRead.ReadQueue | sw_src/driver_modules/demo_module_09.c:343-444 | at any moment of a read at most its last two blocks are unfinished |
| DmaAbandonRead.GuardSufficesAfterRead | sw_src/driver_modules/demo_module_09.c:204-228 | after a read with k blocks submitted, a fill level of at most two leaves the slot of block j of the next write untouched unless j < k % 4 <= j + 2 |
| DmaAbandonRead.GuardFailsAfterRead | sw_src/driver_modules/demo_module_09.c:204-228 | for every k and j with j < k % 4 <= j + 2, a run of both calls passes the guard while a block of the read is still being written to that slot |
| DmaAbandonRead.GuardAfterReadIff | sw_src/driver_modules/demo_module_09.c:204-228 | over every state of a read with k blocks submitted and every run of the next write through the same page, the guard protects the slot of its block j if and only if not j < k % 4 <= j + 2 |
| DmaAbandonRead.OtherPageAfterRead | sw_src/driver_modules/demo_module_09.c:509-527 | a write through the other page is protected whatever a read left over |
| DmaDriver.EmptyReadLeavesOneBlock | sw_src/driver_modules/demo_module_09.c:608-620 | what an empty read leaves is what a read of one block leaves after submitting it |
| DmaDriver.Device.CoReadLoop | sw_src/driver_modules/demo_module_09.c:620-670 | the loop returns the data block by block and, whenever it ends, has gone through the rounds of a read |
| DmaDriver.Device.StReadLoop | sw_src/driver_modules/demo_module_09.c:343-444 | the same for the streaming loop, with the two handle variables of the live mappings |
| DmaDriver.Device.CoWriteLoop | sw_src/driver_modules/demo_module_09.c:505-541 | the loop follows those rounds: whenever it ends, normally or not, it has reached its state with the blocks it has submitted |
| DmaDriver.Device.StWriteLoop | sw_src/driver_modules/demo_module_09.c:204-260 | the same for the streaming loop, whose four handle variables hold exactly the live mappings |
| DmaDriver.Device.CoWrite | sw_src/driver_modules/demo_module_09.c:466-559 | for every position and count a write that returns normally writes and counts exactly what fits before the end, moves the position by that much and leaves an idle engine; a position at the end gives ENOSPC, one past it or a clipped count that is not a multiple of 1024 EINVAL, and any error keeps the position; an interrupted or faulting write partly writes the window and leaves the engine where an interrupted loop can be |
| DmaDriver.Device.StWrite | sw_src/driver_modules/demo_module_09.c:156-291 | the same for the streaming write, and one mapping and one unmapping per block with none left |
| DmaDriver.Device.CoRead | sw_src/driver_modules/demo_module_09.c:561-677 | a non-empty read returns exactly the bytes ahead of the position that fit before the end, moves the position by that many and leaves the buffer and an idle engine; an empty one leaves the buffer and exactly one descriptor; a normal return leaves the device ready if and only if the read was not empty; an error keeps the position; a broken read gives a prefix and leaves the engine where an interrupted read can be |
| DmaDriver.Device.StRead | sw_src/driver_modules/demo_module_09.c:293-450 | the same for the streaming read, with one mapping and one unmapping per block; ready, and no mapping left, if and only if the read was not empty |
| DmaDriver.Device.Seek | sw_src/driver_modules/demo_module_09.c:74-120 | the new position is, by mode, the offset, the position plus the offset, or the end, no further than the end; a negative or unaligned one is an error and changes nothing |
| DmaSession.Dispatch | sw_src/driver_modules/demo_module_09.c:452-684 | every operation through either variant refines the same operation on one byte array |
| DmaSession.RunSession | sw_src/driver_modules/demo_module_09.c:74-677 | any sequence of operations on any number of open files of either variant gives the replies and the final state of one plain 1 MiB byte array, up to the first interruption or fault |
| DmaSession.PositionsAligned | sw_src/driver_modules/demo_module_09.c:74-120 | through any sequence every file position stays a multiple of 1024 between 0 and 1 MiB |
| DmaSession.LastWriteWins | sw_src/driver_modules/demo_module_09.c:74-120 | after any sequence each byte is the one of the latest write that covers it, or the initial one |
| DmaSession.ReadsReturnLatest | sw_src/driver_modules/demo_module_09.c:74-120 | a read after any sequence returns for each address the byte of the latest covering write by either variant |
| DmaLaws.WriteFits | sw_src/driver_modules/demo_module_09.c:156-291 | a write that fits replaces exactly its bytes at the position of its file, moves that file past them and no other |
| DmaLaws.WritesJoin | sw_src/driver_modules/demo_module_09.c:156-291 | two writes one after the other through one file are one write of both |
| DmaLaws.ReadFits | sw_src/driver_modules/demo_module_09.c:293-450 | a read that fits returns the bytes ahead of its file and moves it past them |
| DmaLaws.ReadsJoin | sw_src/driver_modules/demo_module_09.c:293-450 | two reads one after the other return, and end where, one read of both does |
| DmaLaws.SeekMoves | sw_src/driver_modules/demo_module_09.c:74-120 | a seek from the start puts that file, and no other, at that address |
| DmaLaws.SeekAdds | sw_src/driver_modules/demo_module_09.c:74-120 | a relative seek goes from where the file is, and by 0 tells where that is |
| DmaLaws.SeekToEnd | sw_src/driver_modules/demo_module_09.c:74-120 | after a seek to the end a write has no room and a read returns 0, with the buffer unchanged |
| DmaLaws.WriteThenRead | sw_src/driver_modules/demo_module_09.c:74-450 | what one file writes at an address any file of either device reads back there, wherever both were |
| MmlinkLines.RunMeaning | sw_src/mmlink/mmlink_connection.cpp:165-205 | executing lines means: a bound connection executes all commands; an unbound one must start with the exact handle, or fails at its first command |
| MmlinkLines.LinesAppend | sw_src/mmlink/mmlink_connection.cpp:119-151 | cutting a stream anywhere and keeping the open line gives the same lines as cutting nowhere |
| MmlinkLines.ChunkingIrrelevant | sw_src/mmlink/mmlink_connection.cpp:41-160 | for a stream without the pipe character, the outcome after any way of receiving it is that of the whole stream's lines, up to the first failing command |
| MmlinkLines.CommandsOfStream | sw_src/mmlink/mmlink_connection.cpp:41-160 | from a new connection the commands executed are the non-empty C-string lines of the whole stream in order, all of them or up to the one that fails |
| MmlinkLines.RoomRemains | sw_src/mmlink/mmlink_connection.cpp:47-52 | with lines of at most 2999 bytes the buffer always has room for one more byte |
| MmlinkLines.FillsIffLongLine | sw_src/mmlink/mmlink_connection.cpp:47-52 | some cut of a stream leaves an open line of 3000 bytes or more if and only if the stream has a line that long |
| MmlinkLines.FullBufferJams | sw_src/mmlink/mmlink_connection.cpp:47-52 | a pass over a full buffer without terminator or pipe character changes nothing |
| MmlinkLines.HandleThenPipe | sw_src/mmlink/mmlink_connection.cpp:182-205 | an unbound connection that sends the current handle, a newline and a pipe character becomes the data connection with what it sent in the buffer |
| MmlinkLines.EitherEndsLine | sw_src/mmlink/mmlink_connection.cpp:136-150 | a carriage return ends a line and so does a newline |
| MmlinkLines.HexReadsBack | sw_src/mmlink/mmlink_connection.cpp:182-205 | the hexadecimal digits of every number that fits stand for that number |
| MmlinkLines.HandleNamesId | sw_src/mmlink/mmlink_connection.cpp:182-205 | the handle is the word HANDLE, a space and eight digits that stand for the id |
| MmlinkLines.HandlesDiffer | sw_src/mmlink/mmlink_connection.cpp:182-205 | different 32-bit ids have different handles |
| MmlinkRuns.RoundKeeps | sw_src/mmlink/mmlink_server.cpp:147-309 | whatever the outside answers, a round keeps: count equals open slots, at most one data connection, data implies bound implies open, welcomed under the current handle, commands and open line those of everything heard, conservation both ways, and the driver flags |
| MmlinkRuns.RoundsKeep | sw_src/mmlink/mmlink_server.cpp:147-313 | the same over any number of rounds |
| MmlinkRuns.StateInOrder | sw_src/mmlink/mmlink_server.cpp:326-421 | in every reachable state a slot is free whenever fewer than two are open, at most one connection is in data mode, a bound connection was alone or has sent the exact current handle, and in both directions bytes in equal bytes out followed by the buffer, which holds at most 3000 |
| MmlinkRuns.HandleIsStable | sw_src/mmlink/mmlink_server.cpp:375-392 | the handle changes only in a round that starts with no connection open |
| MmlinkRuns.CommandsOfConnection | sw_src/mmlink/mmlink_connection.cpp:41-205 | in every reachable state an open connection has carried out exactly the non-empty lines of everything it received, in order, however it was received; the buffer of a management connection is the open line |
| MmlinkRuns.TurnOutcome | sw_src/mmlink/mmlink_connection.cpp:41-205 | a management turn closes the connection exactly when there is room and recv fails or finds the peer gone, the first command of an unbound one is not the handle, or a pipe character comes before it is bound |
| MmlinkRuns.TurnsAreConverse | sw_src/mmlink/mmlink_connection.cpp:41-160 | the turns of a slot, one receive each, end as the chunk-by-chunk function does for every stream without a pipe character whose receives fit |
| MmlinkRuns.JammedForever | sw_src/mmlink/mmlink_connection.cpp:47-52 | a management connection with a full buffer is left exactly as it is by every run |
| MmlinkRuns.JammedIffLongLine | sw_src/mmlink/mmlink_connection.cpp:41-160 | in every reachable state a management connection's buffer is full if and only if it has received a line of 3000 bytes, and for every stream it received a prefix of, it is heard no further than the first 3000 bytes of such a line |
| MmlinkRuns.JammedIsReachable | sw_src/mmlink/mmlink_connection.cpp:41-160 | for any 3000 bytes without terminator and pipe character, a run from a new server leaves them in a full buffer |
| MmlinkRuns.DriverIsOffered | sw_src/mmlink/mmlink_server.cpp:572-573 | a data connection's turn that is ready finds the driver writable, so the early return is not taken |
| MmlinkRuns.ServedIffNotMissed | sw_src/mmlink/mmlink_server.cpp:425-435 | in every reachable state with a data connection, a round takes its turn if and only if it is not in slot 1 with slot 0 closed |
| MmlinkRuns.ServedBytesAreOffered | sw_src/mmlink/mmlink_server.cpp:545-629 | when the turn is taken, the driver writable and bytes buffered, exactly what the driver takes leaves the front of the buffer, and that is something if and only if its first write takes something |
| MmlinkRuns.MissedWaitsOn | sw_src/mmlink/mmlink_server.cpp:175-268 | a missed data connection is unchanged by every run in which no client is accepted |
| MmlinkRuns.AcceptRescues | sw_src/mmlink/mmlink_server.cpp:230-268 | accepting a client makes the next round offer its bytes again |
| MmlinkRuns.MissedIsReachable | sw_src/mmlink/mmlink_server.cpp:175-308 | two clients, the second sending handle and pipe character, the first hanging up, reach a missed data connection with bytes buffered and pending set |
| MmlinkRuns.CutOffForever | sw_src/mmlink/mmlink_server.cpp:437-543 | once the host is marked blocked with pending clear, no run sends a byte to any host |
| MmlinkRuns.CutOffIsReachable | sw_src/mmlink/mmlink_server.cpp:437-543 | a run from a new server reaches that state through a first send that takes nothing |
| MmlinkRuns.HostIsReachedIffNotCutOff | sw_src/mmlink/mmlink_server.cpp:437-543 | from every reachable state with a served data connection some continuation sends a byte to the host if and only if it is not cut off |
| MmlinkFeeds.RecordedKeeps | sw_src/mmlink/mmlink_server.cpp:147-313 | over any rounds, what each connection holds agrees with a tape that records only what the outside gave and took in that connection's rounds |
| MmlinkFeeds.FromHeardAlways | sw_src/mmlink/mmlink_connection.cpp:111-160 | over any rounds, what a data connection has for the driver is the end of what its host sent, with a pipe character in it and the terminators before that overwritten |
| MmlinkFeeds.BytesPassThrough | sw_src/mmlink/mmlink_server.cpp:437-629 | in every reachable state the bytes sent to the host followed by those waiting are the bytes the driver gave, as far as they fitted; those sent to the driver followed by those waiting are the end of what the host sent; the commands carried out are the lines it sent before that |
| MmlinkLaws.T2hFlags | sw_src/mmlink/mmlink_server.cpp:437-543 | after sends to the host it is marked blocked exactly if bytes are left, and pending is set exactly if some of them were taken and some left, and cleared only when there is nothing to send |
| MmlinkLaws.CutOffStepIff | sw_src/mmlink/mmlink_server.cpp:437-543 | a round cuts the host off if and only if a first send takes nothing while nothing is pending, or a new data connection with nothing to send finds its predecessor's host blocked and pending |
| MmlinkLaws.DriverFlags | sw_src/mmlink/mmlink_server.cpp:545-629 | after a turn that offers bytes to the driver it is marked blocked exactly if some are left, and then pending; another turn leaves both flags and the buffer |
| MmlinkLaws.BreaksIff | sw_src/mmlink/mmlink_server.cpp:478-505 | a row of sends ends with a socket error if and only if one of them is such an error, each before it took some bytes and together they took fewer than there are |
| MmlinkLaws.StopsIff | sw_src/mmlink/mmlink_server.cpp:245-268 | a round ends the loop if and only if a send to the host meets a socket error before its bytes have run out; the other connection then gets no turn and nothing more goes to the driver |
| MmlinkLaws.AcceptOutcome | sw_src/mmlink/mmlink_server.cpp:326-392 | in every reachable state with a free slot a new client gets one, is bound exactly if no other is open, and then under a handle that differs from the last |
| MmlinkLaws.AcceptLasts | sw_src/mmlink/mmlink_server.cpp:230-308 | that client is still there, as welcomed, at the end of the round |
| MmlinkLaws.DataClosedIff | sw_src/mmlink/mmlink_server.cpp:245-308 | in every reachable state a round closes the data connection if and only if, in a turn that is taken and with room, recv fails or finds the peer gone, or another connection becomes the data connection |
| MmlinkDriverErrors.CountIsRightIff | sw_src/mmlink/mmlink_server.cpp:577-602 | the loop's count is the number of bytes the driver took if and only if its row of answers does not break with another error than EAGAIN before all is taken or nothing more is |
| MmlinkDriverErrors.FirstErrorLengthensBuffer | sw_src/mmlink/mmlink_server.cpp:577-627 | such an error on the first write leaves a buffer one byte longer than before |
| MmlinkConnection.Connection.constructor | sw_src/mmlink/mmlink_connection.h:42-42 | a new connection is closed, with separate buffers, and valid |
| MmlinkConnection.Connection.Close | sw_src/mmlink/mmlink_connection.h:51-51 | closing resets socket, flags and both buffer ends |
| MmlinkConnection.Connection.HandleReceive | sw_src/mmlink/mmlink_connection.cpp:41-80 | the buffer grows by exactly what fits of the bytes received, by none on failure or when full; it fails if and only if there is room and recv failed or the peer closed |
| MmlinkConnection.Connection.ManagementCommand | sw_src/mmlink/mmlink_connection.cpp:165-205 | one line has the specified effect on the bound flag, the log and failure |
| MmlinkConnection.Connection.EndLine | sw_src/mmlink/mmlink_connection.cpp:136-150 | overwriting a terminator and executing the line in place keeps the scan's invariant, or the pass fails as specified |
| MmlinkConnection.Connection.Scan | sw_src/mmlink/mmlink_connection.cpp:111-155 | the in-place scan reaches the verdict, execution state and remaining bytes of the specified pass |
| MmlinkConnection.Connection.HandleManagement | sw_src/mmlink/mmlink_connection.cpp:111-160 | one pass with its final shift gives the specified buffer, flags and failure; a conversion to data keeps every byte of the buffer for the driver |
| MmlinkConnection.Connection.ReceiveAndManage | sw_src/mmlink/mmlink_server.cpp:279-306 | one receive and one pass fail exactly when either does, and otherwise leave the connection of the specified turn |
| MmlinkConnection.Connection.DrainToDriver | sw_src/mmlink/mmlink_server.cpp:575-626 | the bytes given to the driver are the front of the buffer, as many as the row of writes takes until all is taken or one takes nothing, and the buffer keeps the rest |
| MmlinkConnection.Connection.OfferToDriver | sw_src/mmlink/mmlink_server.cpp:575-602 | the loop of writes hands the driver exactly the bytes from the front of the buffer that its answers take |
| MmlinkConnection.Connection.DrainToHost | sw_src/mmlink/mmlink_server.cpp:478-531 | the same towards the host, and an error is reported if and only if the row of sends ends with one |
| MmlinkConnection.Connection.OfferToHost | sw_src/mmlink/mmlink_server.cpp:478-505 | the loop of sends hands the host exactly the bytes from the front of the buffer that its answers take, and reports a socket error exactly when it meets one |
| MmlinkConnection.Connection.ReadDriver | sw_src/mmlink/mmlink_server.cpp:456-468 | the buffer towards the host is what it was followed by the first bytes read, as many as fit in 3000 |
| MmlinkServer.Server.GetDataConnection | sw_src/mmlink/mmlink_server.cpp:425-435 | the slot found is the first data connection among the first num slots |
| MmlinkServer.Server.GetUnusedConnection | sw_src/mmlink/mmlink_server.cpp:394-405 | a closed slot is returned, and none exactly when both are open |
| MmlinkServer.Server.Accept | sw_src/mmlink/mmlink_server.cpp:326-392 | the first closed slot gets the socket, is bound exactly when alone and welcomed with a new handle then; nothing changes when accept fails or no slot is free |
| MmlinkServer.Server.CloseSlot | sw_src/mmlink/mmlink_server.cpp:262-267 | the slot is reset and the count goes down by one, nothing else changes |
| MmlinkServer.Server.SendToHost | sw_src/mmlink/mmlink_server.cpp:478-543 | the sending half sets blocked and pending from what is left, as specified, and reports a socket error |
| MmlinkServer.Server.HandleT2h | sw_src/mmlink/mmlink_server.cpp:437-543 | driver-to-host transfer does what it does on values, for every readiness and every answer |
| MmlinkServer.Server.SendToDriver | sw_src/mmlink/mmlink_server.cpp:575-629 | the sending half marks the driver blocked exactly when bytes remain, and then pending |
| MmlinkServer.Server.HandleH2t | sw_src/mmlink/mmlink_server.cpp:545-629 | host-to-driver transfer does what it does on values, and fails exactly when receiving does |
| MmlinkServer.Server.Takeover | sw_src/mmlink/mmlink_server.cpp:299-305 | any other data connection is closed and the new one's bytes are marked pending |
| MmlinkServer.Server.Converse | sw_src/mmlink/mmlink_server.cpp:271-308 | a management turn does what it does on values: the slot is closed, kept, or becomes the data connection |
| MmlinkServer.Server.ServeData | sw_src/mmlink/mmlink_server.cpp:245-268 | the data connection's turn does what it does on values, and ends the loop exactly on a host socket error |
| MmlinkServer.Server.Iterate | sw_src/mmlink/mmlink_server.cpp:147-309 | one round of the in-place code is one round on values, for every answer of the outside |
| MmlinkServer.Server.Run | sw_src/mmlink/mmlink_server.cpp:147-313 | any number of rounds are the rounds on values and keep the invariant, and a host once cut off gets no byte in any of them |
| FifoDevice.StepKeeps | sw_src/driver_modules/demo_module_10.c:59-182 | every step of any thread keeps order of the stream, exclusive use and each call's progress |
| FifoDevice.WakeupKeeps | sw_src/driver_modules/demo_module_10.c:79-182 | every step but a copy fault keeps a sleeper's condition false or a wake-up owed |
| FifoDevice.RunKeeps | sw_src/driver_modules/demo_module_10.c:59-182 | both invariants over any run, the second if its faults strand nobody |
| FifoDevice.FaultKeepsIff | sw_src/driver_modules/demo_module_10.c:101-105 | a copy fault keeps wake-ups from being lost if and only if it strands nobody |
| FifoDevice.EarlyWriterFaultIsHarmless | sw_src/driver_modules/demo_module_10.c:101-105 | a writer that faults before its first word strands nobody |
| FifoDevice.ReaderFaultStrandsIff | sw_src/driver_modules/demo_module_10.c:163-168 | a reader's fault, which always takes a word, strands somebody exactly when a writer sleeps unwoken and no other reader has yet to wake it |
| FifoDevice.WriterFaultStrandsIff | sw_src/driver_modules/demo_module_10.c:101-105 | a writer's fault strands somebody exactly when it has put words in, a reader sleeps unwoken and no other writer has yet to wake it |
| FifoDevice.WakeupsKeptIff | sw_src/driver_modules/demo_module_10.c:59-182 | no state of a run has a lost wake-up if and only if no fault of it strands anybody |
| FifoDevice.EarlyFaultsAreHarmless | sw_src/driver_modules/demo_module_10.c:59-182 | runs whose faults are all by writers that have moved nothing lose no wake-up |
| FifoDevice.Conservation | sw_src/driver_modules/demo_module_10.c:59-182 | in every run the words taken out are a prefix of the words put in, the FIFO holds the rest within 256, and each finished call moved a contiguous, positive number of words: min(count, available) bytes exactly when count is not 0 |
| FifoDevice.NoWakeupIsLost | sw_src/driver_modules/demo_module_10.c:79-182 | in every run whose faults strand nobody, a sleeping writer means a full FIFO or an owed wake-up, and a sleeping reader an empty one or an owed wake-up |
| FifoDevice.FaultLosesWakeup | sw_src/driver_modules/demo_module_10.c:101-105 | a run with a copy fault leaves a reader asleep beside a word nobody will announce |
| FifoDevice.MachineMovesTheSame | sw_src/driver_modules/demo_module_10.c:97-176 | the thread machine goes on moving words exactly until the number the two loops move |
| FifoTrace.CallsAreAsTold | sw_src/driver_modules/demo_module_10.c:59-182 | in every run, by its steps alone: the stream is the words of the writers' steps in order, each call has moved the words of its own steps, it has returned an error if and only if a signal or fault ended it or its count was bad, and on the queue it is woken exactly if another has woken the queue since it joined |
| FifoTrace.SleepsUntilWoken | sw_src/driver_modules/demo_module_10.c:79-96 | in every run a sleeper goes on only if another call has woken the queue since it joined |
| FifoTrace.CanFinish | sw_src/driver_modules/demo_module_10.c:79-182 | from every reachable state every call with a good count that has not returned can be finished without any signal or fault |
| FifoDevice.Fifo.WriteWords | sw_src/driver_modules/demo_module_10.c:97-115 | the loop appends min(count, room) words of the user's memory in order and faults exactly when that memory ends before; count 0 wraps around |
| FifoDevice.Fifo.ReadWords | sw_src/driver_modules/demo_module_10.c:159-176 | the loop takes the oldest min(count, level) words in order; on a fault exactly one popped word is lost |
| FifoDevice.Fifo.Drain | sw_src/driver_modules/demo_module_10.c:443-453 | the FIFO is empty and reads level 0 afterwards |
| Validator.StepKeeps | sw_src/validator_module/validator_module.c:232-423 | every step of any caller or the Nios keeps the token, handshake and reply invariants |
| Validator.RunKeeps | sw_src/validator_module/validator_module.c:52-423 | the invariants over any run |
| Validator.BufferHasOneUser | sw_src/validator_module/validator_module.c:232-423 | in every run with any callers and error exits, read semaphore plus write semaphore plus calls inside is at most 1 while a token device is open, and never two calls use the shared buffer |
| Validator.ResultIsOwn | sw_src/validator_module/validator_module.c:52-123 | in every run only the flag's owner writes the shared RAM, and a result taken after the wait answers the request that caller posted |
| Validator.ReadGetsLatestReply | sw_src/validator_module/validator_module.c:232-306 | in every run a successful read delivers the reply to the latest successful write, one never delivered before |
| Validator.FailureLosesToken | sw_src/validator_module/validator_module.c:252-304 | in every run an error exit past the semaphore leaves both semaphores down and nobody inside |
| Validator.TokenStepIff | sw_src/validator_module/validator_module.c:232-304 | while the token is there, a step loses it if and only if it is an error exit past the semaphore |
| Validator.TokenKeptIffNoErrorExit | sw_src/validator_module/validator_module.c:232-423 | from every opening to the release, semaphores plus calls inside are exactly one if and only if no such exit has happened |
| Validator.TokenLossIsReachable | sw_src/validator_module/validator_module.c:269-273 | a write that fails while copying in loses the token |
| Validator.LostTokenStaysLost | sw_src/validator_module/validator_module.c:306-320 | from then on no request, write or delivery happens until the device is released |
| Validator.SysfsReleases | sw_src/validator_module/validator_module.c:496-605 | every return of a sysfs handler, with an error or not, gives the driver mutex back |
| ValidatorReplies.RunSound | sw_src/validator_module/validator_module.c:52-423 | over any run each call's requests, the replies in the shared buffer and those given to its caller belong together |
| ValidatorReplies.CallerGetsItsReplies | sw_src/validator_module/validator_module.c:52-200 | in every run a read of the random or entropy device, and a sysfs handler, that has returned was given the replies to exactly the requests it posted, in order, and those requests carried no message |
| ValidatorReplies.BufferHoldsReplies | sw_src/validator_module/validator_module.c:107-122 | in every run the buffer that such a read is about to copy out holds exactly those replies |
| ValidatorReplies.ReplyIsToTheMessage | sw_src/validator_module/validator_module.c:232-423 | in every run the reply that a read of the signing or authenticating device delivers is to a request carrying the message of the latest successful write |
| ValidatorTrace.CallsAreAsTold | sw_src/validator_module/validator_module.c:52-423 | in every run, by its steps alone: flag, mutex, requests and messages signed, and for each call its requests, whether it has returned, and whether it failed, which takes a signal, timeout, fault or bad argument or a flag with the Nios |
| ValidatorTrace.PlainReadIsAsTold | sw_src/validator_module/validator_module.c:52-200 | in every run a finished read of the random or entropy device was given the replies to the requests its own steps posted, as many as it was entered for |
| ValidatorTrace.CanFinish | sw_src/validator_module/validator_module.c:52-423 | from every reachable state every call past its semaphore or mutex can be finished without an error by itself and the Nios |
| ValidatorTimeout.NeverEarly | sw_src/validator_module/validator_module.c:73-84 | the deadline is the start plus the allowance, and the comparison never fires before it |
| ValidatorTimeout.ExactOnWholeSeconds | sw_src/validator_module/validator_module.c:83-84 | the comparison is the intended order of times if and only if the deadline is on a whole second |
| ValidatorTimeout.MayBeMissedByAnyAmount | sw_src/validator_module/validator_module.c:83-84 | for any other deadline a poll may be late by any amount without the wait ending |
| ValidatorTimeout.WaitForFlag | sw_src/validator_module/validator_module.c:73-87 | the loop stops at the first poll that is past the deadline or sees the flag back, whichever it looks at first, and a time-out is never early |
| IntervalTimer.JoinHalves | sw_src/driver_modules/demo_module_07.c:326-330 | a 32-bit period written as two 16-bit halves reads back as itself |
| IntervalTimer.ReadBack | sw_src/driver_modules/demo_module_07.c:293-372 | interval n reads back as n if and only if rate % n < rate / n, and the query divides by zero if and only if rate < n |
| IntervalTimer.ReadBackFromSquare | sw_src/driver_modules/demo_module_07.c:293-372 | every 32-bit rate of at least n*n reads n back |
| IntervalTimer.BelowSquareReadsNext | sw_src/driver_modules/demo_module_07.c:293-372 | rate n*n-1 with n >= 2 reads back n+1 |
| TimerRace.StepKeeps | sw_src/driver_modules/demo_module_07.c:281-346 | every step of timer, handler and ioctl keeps the lock, register and statistics invariants |
| TimerRace.RunKeeps | sw_src/driver_modules/demo_module_07.c:281-346 | the invariants over any run |
| TimerRace.PeriodWrittenAtRest | sw_src/driver_modules/demo_module_07.c:301-330 | in every run the period is written only with the timer stopped, no timeout pending and no handler waiting or inside |
| TimerRace.DelaysWithinPeriod | sw_src/driver_modules/demo_module_07.c:1072-1110 | in every run max and min, read under the lock, are the largest and smallest delay since the last reset, and all are within the current period |
| TimerRace.DelayDoesNotWrap | sw_src/driver_modules/demo_module_07.c:1085-1099 | in every run the handler's 32-bit subtraction is exact |
| TimerTrace.DelaysAreTicks | sw_src/driver_modules/demo_module_07.c:1072-1110 | in every run the delays recorded since the last reset are, by the steps alone, the ticks from the last reload to each latch, in order; max and min are their extremes; a timeout is pending exactly if the timer has run out since the last clear; a change or an interrupt is under way exactly if it has begun and not ended; the interval is the one asked for last, at most 100 |
| TimerTrace.ChangeEndsIff | sw_src/driver_modules/demo_module_07.c:301-345 | in every reachable state from the wait on, an interval change can end, with its period written and the timer running unless the interval is 0, if and only if it does not wait for a timeout whose interrupt was never dispatched |
| TimerTrace.TimeoutCanBeHandled | sw_src/driver_modules/demo_module_07.c:1072-1110 | in every run, between changes, a pending timeout of a timer set to run can be taken, noted as exactly one more delay and cleared by the handler alone |
| TimerTrace.TimeoutsOfTicks | sw_src/driver_modules/demo_module_07.c:292-299 | in k ticks a running timer runs out (k + elapsed) / (period + 1) times |
| TimerTrace.QueryCountsTimeouts | sw_src/driver_modules/demo_module_07.c:347-373 | in every run, between changes and just after a reload, the query returns how often the timer runs out in the next second of its clock: never less than the interval set, and exactly that if and only if rate % n < rate / n |
| TimerRace.TimeoutInterrupts | sw_src/driver_modules/demo_module_07.c:331-341 | in every run, between changes, a timeout of a timer set to run can interrupt |
| TimerRace.QueryReturnsSetInterval | sw_src/driver_modules/demo_module_07.c:347-373 | in every run, between changes, the query returns the interval set last if and only if the timer is stopped or rate % n < rate / n, so for every rate of at least its square |
| TimerRace.StuckForever | sw_src/driver_modules/demo_module_07.c:307-325 | with a timeout pending and no handler dispatched, the wait never ends and the timer never changes |
| TimerRace.WaitCanEnd | sw_src/driver_modules/demo_module_07.c:307-325 | with a handler dispatched or no timeout pending, some run takes the ioctl past the wait |
| TimerRace.WaitEndsIffDispatched | sw_src/driver_modules/demo_module_07.c:307-325 | in every reachable state of the wait with a timeout pending, it can end if and only if a handler is on its way |
| TimerRace.StuckIsReachable | sw_src/driver_modules/demo_module_07.c:301-325 | a run from the initial state reaches the endless wait |

## Left out

- DmaDriver.Device.WaitFill: the wait ends because the engine acts while the driver sleeps; the interrupt that wakes it is not modelled.
- DmaDriver.Device.WaitIdle: the same.
- DmaDriver.Device.CoWrite: starts on an idle engine; what a call does on top of descriptors left over is stated only for the slots its guard protects, because past an unprotected slot its data are not determined by the call.
- DmaDriver.Device.StWrite: the same, and no mapping is left over at its start.
- DmaDriver.Device.CoRead: starts on an idle engine, as the writes do.
- DmaDriver.Device.StRead: starts on an idle engine with no mapping, as the writes do.
- DmaSession.RunSession: excludes reads of no bytes and stops at the first interruption or fault, because the engine is then not idle and the plain byte array is no longer refined.
- DmaDriver.Device.MapToDevice: copies and cache maintenance of one block are single steps; the engine's own copies are byte by byte, with an internal queue of any length.
- DmaAbandonRead.GuardAfterReadIff: speaks of every state of a read with k blocks submitted; a coherent read of more than one block is never left with exactly one.
- DmaDriver.Device.CoWriteLoop: a copy from the user that faults is taken to have copied nothing into the coherent page; no descriptor uses that slot then.
- MmlinkConnection.Connection.DrainToDriver: driver writes take some bytes, none, or fail with EAGAIN; what another error does to the count is stated separately, and what it does to the buffer beyond its recorded length is not.
- MmlinkConnection.Connection.HandleManagement: the buffer after a failing pass is not stated, because the connection is closed at once.
- MmlinkServer.Server.Run: what bound commands do to the driver and the replies sent back are not modelled; they change no server state.
- Validator.ResultIsOwn: one caller at a time for the random and entropy devices, which have no lock of their own; the Nios is assumed to answer the request it finds.
- Validator.BufferHasOneUser: the signing and authenticating devices differ in sizes and offsets only and are one token device here; a message is a number and a reply is the number of the request it answers.
- TimerRace.PeriodWrittenAtRest: covers the ioctl, which the device semaphore serialises, and not the sysfs store, which nothing serialises; the counter is assumed to stay within the period and to reload on a period write.
- ValidatorTimeout.WaitForFlag: clock and flag are given as the sequence of polls.
- The RAM device of demo_module_07.c: a chunked copy between user memory and a fixed window, without concurrency.
- Probe and remove, registration, mmap, uio and the raw validator device: kernel calls with fixed exits.
- The acl library, reduced demo modules, applications, scripts and device trees: no further state or concurrency.
