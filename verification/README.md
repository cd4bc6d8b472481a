# Channels and connections, verified

A Dafny model of the two libraries that carry messages in this repository, with proofs of what they promise:
`tricky-pipe`, whose bounded lock-free MPSC channel and reusable oneshot channel own their message cells without
locks, and `calliope`, which multiplexes connections and requests over one wire.

## How it is modelled

**The channel** (`Options`, `Bits`, `Words`, `Channel*`, `Packed*`, `Core`, `Teardown`).
`Channel.Step` is the machine of all interleavings: one event is one atomic operation of one thread
(`source/tricky-pipe/src/mpsc/channel_core.rs:240-338` and `:390-568`, and the cells and handles of
`source/tricky-pipe/src/mpsc/mod.rs` and `arc_impl.rs`). A sender's `commit_send` is four events (load the tail, load
the slot, compare-and-swap, store the slot), so that stores lag behind the swaps in every possible way; the receiver,
the closing calls and the handle count are cut up in the same way. The same `Step` runs on two kinds of words:
unbounded positions (`Pos`, `Slot`, `Flags`), for which the invariant and its consequences are proved, and the packed
words of the implementation (`Raw`, `RawSlot`, `RawState`). Within a stated number of commits these are proved to do the
same, event for event; beyond it, until a run panics, nothing that the unbounded machine could not do. `Core.Core` is the channel core as an object with its real fields, array, loops and bit
operations, proved against a queue of indices; it is what construction, teardown and every uncontended call do.

**Connections** (`Connections`, `ConnTable`, `Cleanup`, `Initiators`, `Causes`, `Handshake`, `Resets`, `Streams`, `Machine`, `Interfaces`). `ConnTable.ConnTable` is
the slab of `source/calliope/src/conn_table.rs`, an array of entries with its free list threaded through the closed
ones. Every method is proved against `Connections.Table`, a bounded map from IDs to sockets with a stack of free IDs,
and `Connections.Inbound` says what each frame does to that map; `Causes` says, over every run, why each frame was
sent and each answer given. `Handshake` joins two tables by two FIFO wires, and
`Machine.Machine` is one turn of the loop in `source/calliope/src/lib.rs:180-264` over the slab, proved to be steps of it;
`Interfaces` runs two such machines against each other.

**Requests** (`ReqRsp`, `RequestClient`, `Shutdown`) and **the oneshot** (`Oneshot`) are step machines too;
`RequestClient.Client` is the client's own state, whose operations are proved to be steps of `ReqRsp`, and `Shutdown`
composes the whole channel machine with the wait map and the dispatcher beside it.

What a program outside the repository decides (which thread runs next, whether a weak compare-and-swap fails for no
reason, what the registry, the local channels and the server answer, what a poll yields) is an event or a parameter, and
the theorems hold for every choice. `MAX_CAPACITY`, the width of a machine word, is left open as 32 or 64.

### Hypotheses

- Memory is sequentially consistent, and one consumer dequeues at a time, as the MPSC contract says.
- A handle is not dropped while a permit or a call of its own borrows it, nor the receiver while it holds a message.
- `Handshake.Agreement` and its neighbours, and `Streams`: nobody closes a connection locally, frames can be decoded and handed over,
  and initiators wait. The registry may reject, tables may be full, and both peers may initiate at once.
- `Initiators`: a connection is started only when no cleanup is due, since the loop polls `next_outbound` before the
  requests (`source/calliope/src/lib.rs:201-218`, and `Machine.Machine.SendLocal`).
- `ReqRsp`: the server answers a request at most once. The oneshot has one receiver task and one close,
  and its wait cell, which is outside the repository, answers a closed receiver with the close and keeps a wake that comes before the sleep.

### Where the code and its words disagree

The proofs follow the code. In each case the exact condition, or a run that shows the disagreement, is a lemma below.

- The comment at `channel_core.rs:166-167` says that positions may wrap around. First in, first out survives that, but
  sending does not: with sequence numbers modulo `M` (1024 for 64 slots, 2048 for 32), a sender can reach the
  `unreachable!` if and only if the capacity is two or more, after `M - MAX_CAPACITY + 1` commits at the earliest; and
  no run whatever delivers more than `M - 1` messages.
- `Permit::send` is documented to succeed after the receiver closed (`mod.rs:1450-1451`). A commit is refused if and only if
  the channel is closed when it looks at the tail or swaps it, and then its value and index are lost: the index is never
  handed out again, and the teardown does not drop the value.
- `insert_at` can fail on its next ID exactly when the capacity is 65535 or more.
- The deferred cleanup removes the socket that closed if and only if no frame in between removed it; otherwise it can remove
  an accepted connection that has been given its ID, without telling the peer.
- An initiator is left without an answer if and only if a RESET names its socket while it is connecting, and a late RESET
  for the ID's previous connection does.
- Each answered request got the response to itself if and only if no response was dispatched that belonged to a cancelled
  request whose number another request was waiting under; one cancellation and a full turn of the counter bring that about.
- Whenever the wait map is closed, `try_reserve` in `Client::request` fails with the error, as the code expects, if and only if
  no winning `close_with_error` has yet to set ERRORED or to close the send half; it need not when two overlap. The
  `unreachable!` after `wake` is reached exactly when the map is closed after the dispatcher's look at `shutdown`, and a
  response is taken from that look.
- `Header::close` in the oneshot never tells the receiver to drop an unreceived value, since SENT comes with HAS_TX. On a closed
  channel whose receiver is taking no value, a value whose `send` returned Ok is never received if and only if it is left
  in the cell. The channel stays closed exactly if the close found the receiver taking no value: otherwise the store of HAS_RX
  undoes it.
- Dropping an unused oneshot sender is meant to wake the receiver (`oneshot.rs:982-983`). It does not: a receiver that sleeps is woken
  for every value and every close, and sleeps on with something to find exactly when its sender was dropped unused.
- `Receiver::sender` is documented to take and drop a value that was sent and not received and then to make a sender
  (`oneshot.rs:508-511`). It takes the value and says that a sender is active, since it looks at HAS_TX in the word that it saw
  before. Once the receiver has polled with no sender, it never gets one: the loop goes round until the channel is closed.

## Model

| member | source | states |
|---|---|---|
| ChannelTheorems.Fifo | source/tricky-pipe/src/mpsc/channel_core.rs:454-535 | In every run of any number of senders, closers and handles, what was dequeued is a prefix, in order and value for value, of what was committed in the order of the tail's compare-and-swaps |
| ChannelTheorems.NothingLost | source/tricky-pipe/src/mpsc/channel_core.rs:495-535 | Whatever is committed and not yet dequeued is still in its cell, and no more than the capacity is outstanding |
| ChannelTheorems.NeverPanics | source/tricky-pipe/src/mpsc/channel_core.rs:514-517 | The `unreachable!` of a committing sender, and the assertion after the last handle's drop, are dead code, however stale the loaded tail |
| ChannelTheorems.FailsExactly | source/tricky-pipe/src/mpsc/channel_core.rs:509-517 | What that rules out: from an arbitrary state, a step fails exactly if it finds a slot behind the loaded tail, or a sender still counted after the last drop |
| ChannelPreservation.SlotNotBehind | source/tricky-pipe/src/mpsc/channel_core.rs:509-517 | A sender that holds an index never sees the slot of its loaded tail behind it |
| ChannelPreservation.Room | source/tricky-pipe/src/mpsc/channel_core.rs:240-243 | While a sender holds an index of its own, fewer positions than the capacity are unreleased |
| ChannelTheorems.Conservation | source/tricky-pipe/src/mpsc/channel_core.rs:390-403 | Each index is in exactly one place: free, held by one sender, queued at one position, in the receiver's hands, or lost to a refused commit |
| ChannelTheorems.SenderFindsCellEmpty | source/tricky-pipe/src/mpsc/mod.rs:1452-1462 | The cell that a sender is about to write, or gives back unused, holds no value and is not free |
| ChannelTheorems.ReceiverReadsWhatWasSent | source/tricky-pipe/src/mpsc/mod.rs:349-352 | A cell in the receiver's hands holds exactly the value its sender committed until it is moved out, and is empty when released; it is moved out once |
| ChannelTheorems.HandleCount | source/tricky-pipe/src/mpsc/arc_impl.rs:141-162 | The sender count in the state word is the number of live handles, and the head is closed without an error only when there is none |
| ChannelTheorems.DrainBeforeDisconnect | source/tricky-pipe/src/mpsc/channel_core.rs:467-474 | The receiver is told `Disconnected` only when every committed message was dequeued and all handles are gone, and afterwards nothing is committed or dequeued in any continuation |
| ChannelTheorems.SenderDisconnect | source/tricky-pipe/src/mpsc/channel_core.rs:393-398 | A sender is told `Disconnected` only when the claimed receiver has been dropped |
| ChannelTheorems.CloseFreezesTail | source/tricky-pipe/src/mpsc/channel_core.rs:256-263 | Once the tail is closed it never changes and nothing is committed any more in any continuation |
| ChannelTheorems.RefusedExactly | source/tricky-pipe/src/mpsc/channel_core.rs:498-505 | A reservation, a commit, and a compare-and-swap on a tail loaded before are refused if and only if the tail is closed at that moment, and a refused commit loses its cell |
| ChannelTheorems.RefusedCommitLosesItsIndex | source/tricky-pipe/src/mpsc/channel_core.rs:554-562 | The index of a commit that is refused is not freed in any continuation |
| ChannelTheorems.OneError | source/tricky-pipe/src/mpsc/channel_core.rs:271-296 | However many closes race, one error is written, it is never read before, and every error ever reported to anyone is that one |
| ChannelTheorems.Teardown | source/tricky-pipe/src/mpsc/arc_impl.rs:190-203 | When everyone has gone, each committed message was either moved out once or is published in the queue with its value in its cell |
| ChannelProgress.SoloSend | source/tricky-pipe/src/mpsc/channel_core.rs:495-535 | From every reachable state, wherever the others stopped, a sender with a written cell that runs alone on an open channel commits its message as the next one and publishes it |
| ChannelProgress.SoloReceive | source/tricky-pipe/src/mpsc/channel_core.rs:454-493 | From every reachable state in which the next message is published, a receiver that runs alone dequeues that message |
| ChannelProgress.LookExactly | source/tricky-pipe/src/mpsc/channel_core.rs:463-475 | The receiver goes on to dequeue if and only if the next message is published, and else reports `Empty` or goes to find the reason of the close |
| ChannelProgress.FullExactly | source/tricky-pipe/src/mpsc/channel_core.rs:400-403 | A reservation on an open channel finds it full if and only if every index is in a permit, queued, in the receiver's hands, or lost |
| ChannelProgress.RetryExactly | source/tricky-pipe/src/mpsc/channel_core.rs:518-534 | A compare-and-swap on the tail fails exactly if it fails spuriously or the tail is not what was loaded; it then changes nothing, and the sender starts over with the current tail or is refused |
| ChannelProgress.RetryHeadExactly | source/tricky-pipe/src/mpsc/channel_core.rs:475-492 | The same for the head, which only a close can change under the receiver |
| ChannelReports.ClosedExactly | source/tricky-pipe/src/mpsc/channel_core.rs:256-338 | In every run, the send half is closed exactly if the claimed receiver has gone or an error was set and its call has closed it; the receive half exactly if the last drop of a handle is complete or the call has returned |
| ChannelReports.ToldExactly | source/tricky-pipe/src/mpsc/channel_core.rs:390-403 | In every run, exactly these are told: a refused sender and a receiver that found its head closed and nothing ready, the error that was written if ERRORED is set and else `Disconnected`; `Empty` a receiver that found it open; `Full` a reservation without a free index |
| ChannelReports.SoloDisconnect | source/tricky-pipe/src/mpsc/channel_core.rs:463-474 | From every reachable state with a closed head and nothing ready, a receiver that runs alone is told the error or `Disconnected`, and is done |
| ChannelReports.SoloRefusal | source/tricky-pipe/src/mpsc/channel_core.rs:393-397 | From every reachable state with a closed tail, so is a reservation that runs alone |
| ChannelReports.SoloReserveAndDrop | source/tricky-pipe/src/mpsc/channel_core.rs:240-244 | A reservation that is dropped leaves everything as it was |
| ChannelReports.SoloTake | source/tricky-pipe/src/mpsc/mod.rs:349-352 | A dequeued message can be moved out, with the value that was committed, and its index is free again |
| ChannelReports.SoloClose | source/tricky-pipe/src/mpsc/channel_core.rs:271-296 | From every reachable state without one, a close with an error by a live handle or the receiver sets that error and closes both halves |
| ChannelReports.LaterClose | source/tricky-pipe/src/mpsc/channel_core.rs:271-278 | Every later call changes nothing |
| ChannelReports.SoloDrop | source/tricky-pipe/src/mpsc/channel_core.rs:318-338 | The drop of the last handle closes the receive half, and no other drop does |
| ChannelReports.SoloClone | source/tricky-pipe/src/mpsc/channel_core.rs:299-313 | A handle can be cloned from every reachable state |
| ChannelReports.SoloClaim | source/tricky-pipe/src/mpsc/channel_core.rs:246-254 | The receiver can be claimed, and lives, once |
| ChannelReports.SoloDropRx | source/tricky-pipe/src/mpsc/channel_core.rs:256-263 | The drop of the receiver closes the send half |
| ChannelTheorems.StepKeeps | source/tricky-pipe/src/mpsc/channel_core.rs:454-535 | Every atomic operation keeps the invariant of the ring, the cells, the handles and the closes |
| Words.ClosedAgrees | source/tricky-pipe/src/mpsc/channel_core.rs:162-168 | The CLOSED bit of a packed position word is the flag it stands for |
| Words.CloseAgrees | source/tricky-pipe/src/mpsc/channel_core.rs:257-269 | Setting CLOSED leaves the packed position alone |
| Words.SlotIndexAgrees | source/tricky-pipe/src/mpsc/channel_core.rs:509-510 | Shift and mask give the position's index in the ring |
| Words.AdvanceAgrees | source/tricky-pipe/src/mpsc/channel_core.rs:475-480 | Adding POS_ONE advances the position by one and keeps CLOSED, while the next position fits |
| Words.PackWordInjective | source/tricky-pipe/src/mpsc/channel_core.rs:518-523 | A compare-and-swap on packed words succeeds exactly when it would on positions |
| Words.DifferencesAgree | source/tricky-pipe/src/mpsc/channel_core.rs:463-465 | The signed 16-bit differences of both loops are the differences of the positions |
| Words.SlotWordsAgree | source/tricky-pipe/src/mpsc/channel_core.rs:481-486 | Adding LAP_ONE moves a slot one lap on and keeps the index in it |
| Words.PublishAgrees | source/tricky-pipe/src/mpsc/channel_core.rs:524-526 | What a sender stores is the next sequence number with its index |
| Words.PublishedIsReadyExactly | source/tricky-pipe/src/mpsc/channel_core.rs:463-475 | What is published at a position looks ready there if and only if it is not the last position |
| Words.ClaimedAgrees | source/tricky-pipe/src/mpsc/channel_core.rs:246-254 | RX_CLAIMED is read and set without disturbing the rest of the state word |
| Words.ErroringAgrees | source/tricky-pipe/src/mpsc/channel_core.rs:273-278 | So is ERRORING, and the mask of both error bits tests both |
| Words.ErroredAgrees | source/tricky-pipe/src/mpsc/channel_core.rs:290-291 | So is ERRORED |
| Words.SenderCountAgrees | source/tricky-pipe/src/mpsc/channel_core.rs:299-328 | The sender count goes up and down above the flags without disturbing them |
| PackedChannel.StepAgrees | source/tricky-pipe/src/mpsc/channel_core.rs:454-535 | Within the bound, a step on packed words is possible exactly when it is on positions, and gives the packed result |
| PackedChannel.PackedRunAgrees | source/tricky-pipe/src/mpsc/channel_core.rs:160-176 | Every run on packed words with at most `M - MAX_CAPACITY` commits before each step is the packed image of the run on positions |
| PackedChannel.PackedNeverPanics | source/tricky-pipe/src/mpsc/channel_core.rs:514-517 | Within that bound the packed machine does not reach its `unreachable!` |
| PackedSimulation.PackedRunSimulated | source/tricky-pipe/src/mpsc/channel_core.rs:454-535 | Every run on packed words that does not panic, however long, has a run on positions with the same cells, handles, commits, dequeues and errors |
| PackedSimulation.StepLinks | source/tricky-pipe/src/mpsc/channel_core.rs:454-535 | A step on words modulo `M` is no step, one step, or a whole attempt of the unbounded machine |
| PackedSimulation.PackedFifo | source/tricky-pipe/src/mpsc/channel_core.rs:454-535 | In every run on packed words, of whatever length, what was dequeued is a prefix, in order and value for value, of what was committed, and at most the capacity is outstanding |
| PackedPanics.PanicsExactly | source/tricky-pipe/src/mpsc/channel_core.rs:515-517 | Some run on packed words panics if and only if the capacity is two or more, and it has then made more than `M - MAX_CAPACITY` commits, of which one more is enough |
| PackedPanics.SmallNeverPanics | source/tricky-pipe/src/mpsc/channel_core.rs:515-517 | With a capacity below two, every permit that has loaded the tail has the current one, and no run panics |
| PackedLimits.PanicBeyondTheBound | source/tricky-pipe/src/mpsc/channel_core.rs:515-517 | With one commit more, and a capacity of two or more, there is a run that reaches the `unreachable!` |
| PackedLimits.DeliversAtMost | source/tricky-pipe/src/mpsc/channel_core.rs:454-493 | No run on packed words, however long and with whatever capacity, delivers more than `M - 1` messages |
| PackedLimits.StuckForever | source/tricky-pipe/src/mpsc/channel_core.rs:463-474 | A channel whose head is at the last position delivers nothing in any continuation |
| PackedLimits.StallsAtTheEnd | source/tricky-pipe/src/mpsc/channel_core.rs:163-167 | With any capacity but zero, `M - 1` messages can be sent and received one by one, and then nothing is delivered in any continuation |
| Core.Core.constructor | source/tricky-pipe/src/mpsc/channel_core.rs:182-210 | The loop numbers the slots; the queue is empty, all indices are free and there is one sender |
| Core.Core.TryReserve | source/tricky-pipe/src/mpsc/channel_core.rs:390-403 | Refused with the reason when closed, full exactly when no index is free, otherwise some free index changes hands |
| Core.Core.Uncommit | source/tricky-pipe/src/mpsc/channel_core.rs:240-244 | A reservation that is dropped frees its index |
| Core.Core.WinTail | source/tricky-pipe/src/mpsc/channel_core.rs:498-535 | The commit loop ends, whatever the spurious failures, with the reason of the close or the position of the tail, and never reaches its `unreachable!` |
| Core.Core.CommitSend | source/tricky-pipe/src/mpsc/channel_core.rs:495-535 | Appends the index to the queue, or, when closed, loses it and returns the reason |
| Core.Core.WinHead | source/tricky-pipe/src/mpsc/channel_core.rs:454-493 | The dequeue loop ends with the head's position exactly when something is queued, else with `Empty` or the reason of the close |
| Core.Core.TryDequeue | source/tricky-pipe/src/mpsc/channel_core.rs:454-493 | Takes the first index of the queue and changes nothing else; an empty queue is left as it is |
| Core.Core.CloseReason | source/tricky-pipe/src/mpsc/channel_core.rs:537-547 | `Failed(e)` if and only if ERRORED is set and `e` is the error, and `Disconnected` if and only if it is not set |
| Core.Core.TryClaimRx | source/tricky-pipe/src/mpsc/channel_core.rs:246-254 | Only the first call claims the receiver |
| Core.Core.CloseRx | source/tricky-pipe/src/mpsc/channel_core.rs:257-263 | Closes the send half and nothing else |
| Core.Core.CloseTx | source/tricky-pipe/src/mpsc/channel_core.rs:266-269 | Closes the receive half and nothing else |
| Core.Core.CloseWithError | source/tricky-pipe/src/mpsc/channel_core.rs:271-296 | The first call sets the error and closes both halves; a later one changes neither |
| Core.FailsWithTheError | source/tricky-pipe/src/mpsc/channel_core.rs:271-296 | After a close with an error that wins, a reservation, a commit reserved before and a drained dequeue all fail with that error |
| Core.FailsWithoutError | source/tricky-pipe/src/mpsc/channel_core.rs:537-547 | Without one, when the other end has gone, they fail with `Disconnected` |
| Core.Core.AddTx | source/tricky-pipe/src/mpsc/channel_core.rs:299-313 | One sender more |
| Core.Core.DropTx | source/tricky-pipe/src/mpsc/channel_core.rs:318-338 | One sender less; the last one closes the receive half |
| Core.ReservationMeansRoom | source/tricky-pipe/src/mpsc/channel_core.rs:514-517 | A held reservation leaves room in the queue, by counting indices |
| Core.SharedState.Drop | source/tricky-pipe/src/mpsc/arc_impl.rs:190-203 | The draining loop ends and drops exactly the queued messages, in order |
| Teardown.EveryMessageMovedOrDropped | source/tricky-pipe/src/mpsc/arc_impl.rs:190-203 | The 16-bit words that any torn-down run leaves are a valid core whose queued messages are exactly the committed ones that were not received |
| Teardown.DropAfterRun | source/tricky-pipe/src/mpsc/arc_impl.rs:190-203 | The destructor, given the words and cells that a whole run has left, drops exactly the committed messages that were not dequeued, in order |
| Connections.PutKeepsWf | source/calliope/src/conn_table.rs:459-472 | The next ID is in range and vacant whenever there is room, and the stack of closed IDs stays acyclic and complete |
| Connections.RemoveKeepsWf | source/calliope/src/conn_table.rs:403-439 | Removal keeps that too, and is without effect for an absent ID |
| Connections.ReusedAtOnce | source/calliope/src/conn_table.rs:409-432 | The ID closed last is handed out next |
| Connections.OverflowsExactly | source/calliope/src/conn_table.rs:461-463 | The `expect` on the next ID can fail if and only if the capacity is at least 65535, and then does after 65534 insertions |
| Connections.InboundTouchesOneEntry | source/calliope/src/conn_table.rs:134-248 | A frame changes at most the entry it names; an accepted CONNECT adds one absent entry, and is accepted exactly when granted and there is room |
| Connections.InboundKeepsWf | source/calliope/src/conn_table.rs:134-248 | Every frame keeps the table well-formed |
| ConnTable.ConnTable.constructor | source/calliope/src/conn_table.rs:58-66 | The empty table |
| ConnTable.ConnTable.Remove | source/calliope/src/conn_table.rs:403-439 | Takes the socket out of the map and pushes its ID, with the free list relinked |
| ConnTable.ConnTable.ReserveId | source/calliope/src/conn_table.rs:449-457 | None exactly when the table is full |
| ConnTable.ConnTable.InsertAt | source/calliope/src/conn_table.rs:459-472 | Fails exactly at the overflow; neither of the other two failures can happen |
| ConnTable.ConnTable.Insert | source/calliope/src/conn_table.rs:442-446 | Adds the socket under the next ID unless the table is full |
| ConnTable.ConnTable.ProcessAck | source/calliope/src/conn_table.rs:286-331 | Opens a connecting socket and tells its initiator, else answers with the right RESET |
| ConnTable.ConnTable.Reject | source/calliope/src/conn_table.rs:349-375 | Removes the socket and tells a waiting initiator |
| ConnTable.ConnTable.Reset | source/calliope/src/conn_table.rs:377-399 | Removes the socket and closes the channel of an open one |
| ConnTable.ConnTable.Accept | source/calliope/src/conn_table.rs:335-347 | Inserts an open socket and acknowledges it, or rejects it when full |
| ConnTable.ConnTable.ProcessInbound | source/calliope/src/conn_table.rs:134-248 | Each frame does to the slab what `Inbound` does to the map, with the same reply and effects |
| ConnTable.ConnTable.StartConnecting | source/calliope/src/conn_table.rs:253-283 | Inserts a connecting socket and emits CONNECT, or tells the initiator that the table is full |
| ConnTable.ConnTable.CleanupDead | source/calliope/src/conn_table.rs:122-131 | Removes the socket remembered as dead |
| ConnTable.ConnTable.FirstReady | source/calliope/src/conn_table.rs:77-101 | Finds the first open socket, in the order of the IDs, whose poll is not pending, and none exactly if there is none |
| ConnTable.ConnTable.Announce | source/calliope/src/conn_table.rs:77-120 | Data goes out under both IDs of its socket; the end of the local stream goes out as a RESET, with its reason, to the remote ID, and the socket is remembered as dead |
| ConnTable.ConnTable.NextOutbound | source/calliope/src/conn_table.rs:69-120 | After the cleanup, the first open socket in order that has something sends it, addressed to the socket it is open to, and is the dead one exactly if it has ended; with nothing to send, every open socket is pending |
| Cleanup.CleanupRemovesTheDead | source/calliope/src/conn_table.rs:69-131 | The cleanup removes the socket for which the RESET was sent if and only if no frame in between removed that ID; no second RESET can be sent for it |
| Cleanup.CleanupRemovesAnother | source/calliope/src/conn_table.rs:122-131 | After a RESET and a CONNECT in between, it removes the new connection, which has been acknowledged |
| Initiators.OneAnswer | source/calliope/src/conn_table.rs:264-375 | Over every use of a table, each initiator is told at most once and not while it waits; it is left without an answer if and only if a RESET named its socket while it was connecting |
| Initiators.CleanupLosesNobody | source/calliope/src/lib.rs:201-218 | The cleanup never takes the socket of a waiting initiator, even if the dead ID has been given out again |
| Initiators.ArrivalChanges | source/calliope/src/conn_table.rs:286-399 | A frame stops an initiator from waiting exactly if it is an ACK, a REJECT or a RESET for its socket, and tells it exactly in the first two cases |
| Causes.ToldExactly | source/calliope/src/conn_table.rs:286-399 | Over every run, disturbed or not: an initiator is told that it is accepted exactly if an ACK named its connecting socket, and that it is rejected, for this reason, exactly if a REJECT with it did or the table was full; a channel is handed this body, or closed for this reason, exactly if DATA from its peer or a RESET of its open socket did it |
| Causes.SentExactly | source/calliope/src/conn_table.rs:69-283 | Over every run, each frame that is sent, with its IDs, body and reason, was due: CONNECT, ACK and REJECT to a request, DATA and RESET to what a socket has, and the RESET with its own reason to undeliverable or unknown DATA, to a stray ACK, and to an ACK whose initiator has gone; and whatever was due was sent |
| Causes.EffectsExactly | source/calliope/src/conn_table.rs:134-248 | The same for one use of a table, which tells at most one thing |
| Causes.FramesExactly | source/calliope/src/conn_table.rs:134-248 | One use of a table sends at most one frame, and exactly what is due |
| Causes.NamedSocketExactly | source/calliope/src/conn_table.rs:134-248 | An arriving frame takes the socket it names out exactly if it is a REJECT, a RESET, or DATA that cannot be handed over, opens it exactly if it is an ACK for a connecting one, and else leaves it |
| Handshake.Agreement | source/calliope/src/conn_table.rs:286-347 | In every undisturbed run, if a socket is open to another, that one is open to it, or is connecting with the ACK in flight ahead of all data between them |
| Handshake.OneHandshakeFrame | source/calliope/src/lib.rs:190-263 | No RESET is ever emitted; a connecting socket has exactly one of CONNECT, ACK and REJECT in flight, every other ID none |
| Handshake.DataIsHandedOver | source/calliope/src/conn_table.rs:143-192 | Data that arrives finds its two sockets open to each other and is handed to the right channel |
| Handshake.Paired | source/calliope/src/conn_table.rs:134-347 | With nothing in flight, no socket is connecting and open sockets are paired off |
| Handshake.HandshakeCompletes | source/calliope/src/lib.rs:224-262 | From every reachable quiet state with room on both sides, a connection that is started and granted ends open on both sides, to each other, with the channels of its two ends, and changes nothing else |
| Streams.BodiesArriveInOrder | source/calliope/src/conn_table.rs:190-192 | In every undisturbed run, what was sent on an open socket is what was handed to the channel of the socket it is open to, in order, followed by what is in flight |
| Handshake.BothPeers | source/calliope/src/lib.rs:180-264 | Reachable states are closed under exchanging the peers, so all of this holds of both |
| Handshake.StepKeeps | source/calliope/src/lib.rs:190-263 | Each undisturbed step of either peer keeps the invariant of the handshake |
| Handshake.LateResetRemovesANewConnection | source/calliope/src/conn_table.rs:377-399 | With simultaneous closes there is a run in which a late RESET removes a new connecting socket and nobody is told |
| Resets.LocalCloseReachesThePeer | source/calliope/src/conn_table.rs:69-131 | A local close of a socket removes exactly the peer socket that it is open to, whatever the two IDs are, closes its channel with the reason, and then removes the closed one |
| Resets.UndeliverableDataEndsTheConnection | source/calliope/src/conn_table.rs:190-219 | Data that cannot be handed over removes both sockets, and closes the sender's channel with the reason of the failure |
| Resets.UnknownDataEndsTheConnection | source/calliope/src/conn_table.rs:151-186 | Data for a socket that is not open to its sender ends the connection at the sender, as `NoSuchConn`, and changes nothing else |
| Resets.RefusedRequest | source/calliope/src/conn_table.rs:224-283 | A request puts its own identity and hello on the wire under its new ID; refused by the registry or a full table, its initiator is told that reason and both tables are as before |
| Resets.DesertedConnection | source/calliope/src/conn_table.rs:286-331 | An ACK whose initiator has gone resets the socket that the peer opened, and no other |
| Machine.Machine.ReceiveOne | source/calliope/src/lib.rs:224-245 | A turn with a frame on the wire is one step of the peer |
| Machine.Machine.SendLocal | source/calliope/src/lib.rs:201-262 | A turn without one is the cleanup and then the step of the first socket with something to send, else that of the next request; it fails exactly if that request overflows the IDs |
| Interfaces.TakeTurn | source/calliope/src/lib.rs:190-263 | A turn of either loop, with the wires joined, receives the frame that waits, waits if there is none, or makes the local step of the machine; it fails exactly at the overflow of the IDs, which a capacity below 65535 excludes |
| Interfaces.RunBoth | source/calliope/src/lib.rs:180-264 | Any turns of the two loops in any order are a run of the two peers, and none fails below that capacity |
| Interfaces.RunAndAgree | source/calliope/src/lib.rs:180-264 | So while the loops run undisturbed, no RESET is on a wire and open sockets agree |
| ReqRsp.RoutedExactly | source/calliope/src/req_rsp.rs:150-181 | In every run, each answered request got the response to itself if and only if no stale response was dispatched: one of a cancelled request whose number was in use again |
| ReqRsp.ResponsesAreRouted | source/calliope/src/req_rsp.rs:150-181 | So it did in every run without cancellations, and in every run with no more requests than numbers |
| ReqRsp.ResponseWakesExactly | source/calliope/src/req_rsp.rs:248-259 | In every run without stale dispatches so far, a response wakes the request it answers if and only if that was not cancelled; without cancellations every response does |
| ReqRsp.SentIsRemembered | source/calliope/src/req_rsp.rs:168-171 | In every run, whatever was cancelled or misrouted, the message of each request that was sent and not answered is with the server or on its way back |
| ReqRsp.SoloAnswer | source/calliope/src/req_rsp.rs:248-259 | So from every reachable state the server can answer any of them, and if nothing else is on its way back the dispatcher wakes that request with the body |
| ReqRsp.DistinctNumbers | source/calliope/src/req_rsp.rs:150-167 | Requests in flight together have different numbers in every run |
| ReqRsp.SingleDispatcher | source/calliope/src/req_rsp.rs:206-218 | At most one dispatcher ever runs |
| ReqRsp.ResponseGoesAstray | source/calliope/src/req_rsp.rs:248-259 | With one cancellation and a full turn of the counter, a request is woken with another's response |
| RequestClient.Client.EnqueueWaiter | source/calliope/src/req_rsp.rs:150-167 | The retry loop ends after at most one try more than there are requests in flight, with the first free number from the counter on, and is that many turns of the machine |
| RequestClient.NoFreeNumber | source/calliope/src/req_rsp.rs:159-163 | It cannot end if and only if every number is in use |
| RequestClient.Client.Wake | source/calliope/src/req_rsp.rs:248-259 | A response is a dispatch of the machine: as long as responses have been routed, it answers the request it belongs to, or nobody if that was cancelled, if and only if it is not stale |
| RequestClient.Client.StartDispatch | source/calliope/src/req_rsp.rs:206-218 | A call goes on if and only if no dispatcher has run before, and is then the only one |
| Shutdown.ClosedMapMeansError | source/calliope/src/req_rsp.rs:106-123 | If closes do not overlap, a closed wait map means that the send half is closed with its error |
| Shutdown.ReserveFails | source/calliope/src/req_rsp.rs:107-114 | Then `try_reserve` is refused, and returns that error whatever happens before it looks for the reason |
| Shutdown.ClosedMapExactly | source/calliope/src/req_rsp.rs:106-123 | In any run a closed map means that, if and only if no winning close has yet to set ERRORED or to close the send half |
| Shutdown.OverlappingCloses | source/calliope/src/req_rsp.rs:188-194 | There is a run with overlapping closes in which the map is closed and the channel is still open |
| Shutdown.ReturnedExactly | source/tricky-pipe/src/mpsc/channel_core.rs:271-296 | A call of `close_with_error` has returned exactly if it began after another had won, or has closed both halves |
| Shutdown.MapClosedExactly | source/calliope/src/req_rsp.rs:188-194 | The map is closed exactly if a task or the dispatcher has closed it |
| Shutdown.FinishedExactly | source/calliope/src/req_rsp.rs:220-244 | The dispatcher leaves its loop exactly if it looked at `shutdown` after that was signalled, or has given up |
| Shutdown.GivesUp | source/calliope/src/req_rsp.rs:233-244 | A dispatcher that is told that the connection is closed closes the map, once a call has returned, and is done |
| Shutdown.StrayExactly | source/calliope/src/req_rsp.rs:220-255 | The `unreachable!` after `wake` is reached or about to be exactly in the runs in which the map is closed after the dispatcher's look at `shutdown` and a response is taken from that look |
| Shutdown.StrayResponses | source/calliope/src/req_rsp.rs:220-255 | There are such runs with the close before the response is taken and after |
| Oneshot.OneSenderAtATime | source/tricky-pipe/src/oneshot.rs:540-563 | Over all rounds there is at most one unsent sender, and none while a value is taken; while open, HAS_TX holds exactly if a value was sent or a sender is live |
| Oneshot.ReceivedOnce | source/tricky-pipe/src/oneshot.rs:418-450 | What is received is what a sender wrote whose `send` returned Ok, once for each sender |
| Oneshot.HandedBackOrReceived | source/tricky-pipe/src/oneshot.rs:952-971 | A value handed back goes to the sender that wrote it, which is not told Ok, and is never received |
| Oneshot.CellIsExclusive | source/tricky-pipe/src/oneshot.rs:442-450 | The cell is never overwritten and never read empty |
| Oneshot.EveryRound | source/tricky-pipe/src/oneshot.rs:418-450 | From every reachable ready state, a round with a new sender delivers its value and leaves the channel ready again |
| Oneshot.CloseDropsNothing | source/tricky-pipe/src/oneshot.rs:848-867 | The branch of `close` that drops an unreceived value is never taken |
| Oneshot.AcceptedIsSomewhere | source/tricky-pipe/src/oneshot.rs:952-970 | In every run, a value whose `send` returned Ok is in exactly one place: received, copied by the receiver, or in the cell |
| Oneshot.RefusedIsHandedBack | source/tricky-pipe/src/oneshot.rs:957-965 | A value that was written and not accepted is still with its sender, in the cell, or has been handed back, and not both |
| Oneshot.NeverReceivedExactly | source/tricky-pipe/src/oneshot.rs:848-867 | On a closed channel with an idle receiver, an accepted value is never received in any continuation if and only if it is the one left in the cell, which then stays there |
| Oneshot.UnreceivedValueIsLeaked | source/tricky-pipe/src/oneshot.rs:582-588 | A value sent and not received when an idle receiver closes stays in the cell in every continuation, neither received, handed back nor dropped |
| Oneshot.PollExactly | source/tricky-pipe/src/oneshot.rs:418-440 | In every run, a poll of an idle receiver finds the close, if that found the receiver taking no value; else a value, if one was accepted and not received; else that there is no sender, if none is live; else nothing |
| Oneshot.ParkExactly | source/tricky-pipe/src/oneshot.rs:436-437 | A receiver that found nothing is told by the wait cell of any close there has been; else it sleeps, exactly if no wake came first |
| Oneshot.CloseIsUndone | source/tricky-pipe/src/oneshot.rs:442-449 | A close between the look at SENT and the store of HAS_RX leaves the state word ready for another sender |
| Oneshot.ClosedWhileSending | source/tricky-pipe/src/oneshot.rs:952-971 | A value that is being sent when the receiver closes is handed back to its sender |
| Oneshot.ClosedWord | source/tricky-pipe/src/oneshot.rs:848-886 | The word of a closed channel has neither HAS_RX nor HAS_TX, and has SENT exactly if a sender was refused |
| Oneshot.DroppedSender | source/tricky-pipe/src/oneshot.rs:888-890 | A sender that is dropped unused leaves the channel ready for another |
| Oneshot.SleepsExactly | source/tricky-pipe/src/oneshot.rs:869-890 | In every run, a sleeping receiver that nobody is about to wake would find something exactly if its sender was dropped unused: no value and no close goes unnoticed |
| Oneshot.Oversleeps | source/tricky-pipe/src/oneshot.rs:888-890 | In that case nothing but a close or its own look wakes it, in any continuation |
| Oneshot.DroppedWhileAsleep | source/tricky-pipe/src/oneshot.rs:978-986 | From every reachable ready state there is such a run |
| Oneshot.AskExactly | source/tricky-pipe/src/oneshot.rs:540-563 | A receiver that asks for a sender gets: that the channel is closed; that a sender is active, if one is live or a value waited; else a sender exactly if it has not polled since the last value; else nothing, and it asks again |
| Oneshot.AsksForEver | source/tricky-pipe/src/oneshot.rs:540-563 | In that case it never gets one, in any continuation, until the channel is closed |

## Left out

- Core.Core.CommitSend: promises nothing beyond the commit bound, where sequence numbers no longer fit; `PackedSimulation`, `PackedPanics` and `PackedLimits` say what happens there.
- Core.Core.AddTx: promises nothing when the sender count would reach the top of the machine word; the source does not check this either.
- Core.Core.TryReserve: does not say which free index the allocator picks; the allocator is outside the repository.
- ReqRsp.ResponsesAreRouted: assumes that the server answers a request at most once, which the `Copy` on `Request` does not enforce.
- Concurrent channel, oneshot and request code is modelled as step machines on values, not as objects, because every interleaving matters; aliasing of the shared memory is therefore in the shape of the state rather than in Dafny's heap.
- Weak memory orderings.
- Wakers, wait queues and liveness of the channel (`cons_wait`, `prod_wait`, the futures of `reserve` and `recv`); the wait map is only a map that refuses duplicate keys.
- Two concurrent consumers, and consuming through several `ErasedReceiver` references of a oneshot.
- Permits whose cell is written through `DerefMut`, and the unsafe `commit` of an unwritten cell.
- `len`, `is_full`, `is_empty` and `remaining`.
- The handle count of static pipes, whose `deser_sender` does not count its handle.
- A second `close` of a oneshot, and the static oneshot before its receiver is made.
- The byte encoding of frames and messages, decode failures in `Machine::run`, wire errors, and interface frames, for which the source has a `todo!`.
- `tricky-pipe`'s `serbox` and `bidi`, the `plugtail` crate, vtables and type erasure, service registries and clients other than the request client.
