# FileHopZ: a verified model

FileHopZ sends a directory tree over UDP. Two layers do the work. A reliable, ordered, encrypted
chunk transport numbers packets, acknowledges each one selectively, resends on timeout and
reorders on arrival. A transfer protocol on top of it turns a tree into packets, rebuilds the tree in a
staging directory and commits it over the output directory. This project models both layers in Dafny,
proves what each keeps over every run, and composes the two: in every run of the network the receiver of a tree
refuses nothing of what arrives; it ends only with the whole tree staged exactly as it was sent, and if the stream
breaks off before, it leaves the file system as it was.

`dafny verify dfyconfig.toml` checks the whole project.

## How the model is built

| file | what it models |
|---|---|
| `Basics.dfy` | options, results and sequences |
| `AsyncQueues.dfy`, `AsyncValues.dfy` | the queue and the condition variable, as objects and as runs of calls |
| `Congestion.dfy` | the congestion window over real numbers |
| `Reorder.dfy` | the reorder buffer of the receiving stream |
| `Transport.dfy`, `ProtoHopZ.dfy` | one endpoint: a step function for each piece of code between two suspension points, and the objects whose methods do the same in place |
| `Link.dfy` | two endpoints and the network as a step relation, and the invariant of every run |
| `Calls.dfy`, `Datagrams.dfy`, `History.dfy` | what each call answers and what each endpoint has recorded, told from the events of the run alone |
| `Delivery.dfy`, `Wakeup.dfy`, `Progress.dfy` | theorems about every run |
| `Resending.dfy`, `Recovery.dfy`, `Doomed.dfy` | what a timeout pass repairs, and from which states everything can still be delivered |
| `Counterexamples.dfy`, `Losses.dfy` | runs in which an expected property fails, and when none can |
| `Ftp.dfy`, `Paths.dfy` | packet framing, symlink payloads, path texts |
| `FileTree.dfy`, `Links.dfy`, `FileBuilders.dfy` | the file system with its links, staging, buffered output streams and commit |
| `Straying.dfy`, `Visibility.dfy` | what a received stream can change outside the staging directory |
| `Buffers.dfy`, `FileContents.dfy`, `FilePackets.dfy` | what the files of a received stream hold, by where their paths lead and by the packets alone |
| `FileTransfers.dfy`, `Senders.dfy`, `FileIds.dfy`, `Receivers.dfy` | the progress meter and both ends of the transfer protocol |
| `RoundTrip.dfy`, `SenderLinks.dfy`, `EndToEnd.dfy` | the transfer composed with itself, then with the transport |

- The network is the set of all datagrams ever handed to a socket; any of them may be delivered at any
  time, any number of times or never. Loss, duplication and reordering are all runs of this network.
- The cipher is a parameter: sealing may give any result 28 bytes longer that opens to the plaintext
  (unless that is empty, which the decryption routine refuses by its length), or fail.
- Clock readings, socket errors, timer expiries, the order in which a hash table or a directory is
  walked, and when each coroutine runs are chosen freely by the run.
- Runs start after the handshake, with sequence number 0 used up in both directions and possibly still in flight.
- `log`, `acked`, `failed`, `taken`, `woken`, `given`, `served` and `printed` are history: no step reads them. `sent` is the
  network: the other side's deliveries are taken from it, and no step of its own side reads it.
- One map from absolute paths to nodes is the whole file system. A path is resolved as the kernel does it: every link
  on the way is followed, relative to its own directory or from the root, at most 40 of them.
- An output stream has a buffer. How much of it is written out at once, and the order in which the table of open
  streams is walked, are up to the runtime library: both are parameters.

## What turned out not to hold

- An empty payload is acknowledged although the peer refuses it and stops, so a drain can answer true while
  the peer does not hold the packet (`EmptyPayloadIsAckedNotHeld`). `AckSoundness` gives the exact
  condition: an acknowledged number is held if and only if its payload is not empty.
- A sender woken from the window whose encryption fails returns without passing its wakeup on, which can
  leave the next one parked with nothing in flight (`FailedSealLosesWakeup`). `FailedSealStallsIff` says
  exactly when, `StallLasts` that only a new send, a send error or a loop error ends it, and `NoLostWakeup` that without
  such a failure it never happens.
- A loop error wakes one parked sender. All others stay parked for good, but for one more with each send that fails
  (`ErrorStrandsSenders`).
- A packet dropped as out of window is not resent, contrary to the comment at
  src/protohopz/protostream.cpp:217: it has been acknowledged and recorded already. The hard-cap reset
  loses the buffered window in the same way (`OutOfWindowIsLostForever`, `ResetIsLostForever`). Both can happen
  (`DropIsReachable`, `ResetIsReachable`), because `MAX_IN_FLIGHT` bounds the number of packets in flight and not their
  distance. They are all that can be lost: a drained transfer is complete if and only if neither happened
  (`EverythingIsReleased`, `TransferIsDelivered`); while neither has happened, or must, resending can still
  complete it, and otherwise nothing can (`CanReleaseIff`); and neither can happen in a transfer of at most 65536 chunks
  (`SmallTransfersLoseNothing`).
- The receiver checks the text of a path but not the links it goes through. CREATE_SYMLINK "a" to ".." followed by
  CREATE_FILE "a/f" makes a file in the output directory itself, before commit (`LinkLeadsOut`), and cleanup does not take it
  back. `NothingVisibleBeforeCommit`, `RefusalRestoresOutput` and `FailureRestoresIff` give the exact condition: nothing outside
  the staging directory changes, and a failed transfer leaves no trace, if and only if no packet creates a directory or
  a link outside, or opens a file there that is missing or has content, or writes to one. No packet does, if no path
  passes through or ends at a link created earlier in the stream (`LinkFreeIsSilent`), and that of a sender never
  does (`SenderIsLinkFree`), so a transfer that fails leaves no trace (`SenderLeavesNoTrace`).
- A file created again while a stream has it open can keep bytes of the old stream, whose buffer is written into the
  new file when the old stream goes (`AgainKeepsOldBytes`). `FilesHoldWhatWasSentIff` says exactly when files hold
  what was sent for them, wherever links lead.
- A directory whose relative path is longer than 1392 bytes is sent with an empty path, because the sender
  ignores that `set_payload` refused it; the receiver then refuses the transfer. `StreamRebuildsTree` says
  that this is the only way a transferable tree is refused.
- From 2^64 / 100 announced bytes on the progress percentage wraps before the end: such a transfer never shows 100%
  (`HundredIff`, `PercentExactIff`).
- The stream stops admitting anything once `expected_sequence + 65536` reaches 2^32
  (`ExpectedAdmittedUntilWrap`).

## Model

| member | source | states |
|---|---|---|
| `AsyncQueues.AsyncQueue.Push` | include/utils/async_queue.hpp:15-37 | a value goes straight to the oldest parked pop, or is stored if none is parked |
| `AsyncQueues.AsyncQueue.Pop` | include/utils/async_queue.hpp:46-109 | a pop takes the oldest stored value, or parks behind the others |
| `AsyncQueues.AsyncQueue.Cancel` | include/utils/async_queue.hpp:73-105 | a cancelled pop leaves the line and is completed as aborted; nothing else moves |
| `AsyncQueues.Conservation` | include/utils/async_queue.hpp:15-109 | under any interleaving of pushes, pops and cancellations, values handed out followed by values stored equal the values pushed; stored values and parked pops never coexist |
| `AsyncQueues.PopsAreServedInOrder` | include/utils/async_queue.hpp:15-109 | pops served followed by pops parked are exactly the pops never cancelled, in calling order |
| `AsyncQueues.KthPopGetsKthValue` | include/utils/async_queue.hpp:15-109 | the k-th surviving pop receives exactly the k-th value pushed |
| `AsyncQueues.AbortedAreCancelled` | include/utils/async_queue.hpp:73-105 | over any calls the pops completed as aborted are exactly those cancelled, in that order |
| `AsyncQueues.EveryPopIsAccountedFor` | include/utils/async_queue.hpp:15-109 | each pop called has been served, is parked, or was aborted, and only one of these: none is lost or answered twice |
| `AsyncValues.AsyncValue.Set` | include/utils/async_value.hpp:22-50 | stores the value and wakes every parked wait in order |
| `AsyncValues.AsyncValue.Update` | include/utils/async_value.hpp:54-64 | stores the value and wakes nobody |
| `AsyncValues.AsyncValue.NotifyOne` | include/utils/async_value.hpp:68-96 | wakes the oldest parked wait and leaves the value |
| `AsyncValues.AsyncValue.Wait` | include/utils/async_value.hpp:98-149 | every wait parks, whatever the value is |
| `AsyncValues.AsyncValue.Cancel` | include/utils/async_value.hpp:112-143 | a cancelled wait leaves the line and is completed as aborted |
| `AsyncValues.WaitersWakeInOrder` | include/utils/async_value.hpp:22-149 | over any run, waits woken followed by waits parked are exactly the waits never cancelled, in order |
| `AsyncValues.SetWakesEverySurvivor` | include/utils/async_value.hpp:22-50 | after a set, every earlier wait never cancelled has been woken |
| `AsyncValues.NotifyWakesTheOldestSurvivor` | include/utils/async_value.hpp:68-96 | a notification wakes exactly the oldest survivor not yet woken |
| `AsyncValues.ValueIsLastStored` | include/utils/async_value.hpp:22-64 | the value is the argument of the last set or update, or the initial one, and the version counts them |
| `AsyncValues.AbortedAreCancelled` | include/utils/async_value.hpp:112-143 | the waits completed as aborted are exactly those cancelled, in that order |
| `AsyncValues.EveryWaitIsAccountedFor` | include/utils/async_value.hpp:22-149 | each wait has been woken, is parked, or was aborted, and only one of these |
| `Congestion.After` | src/protohopz/protohopz.cpp:693-702 | over any sequence of effective ACKs and timeout passes the window stays within 1..1024 and the threshold within 2..512 |
| `Congestion.AvoidanceGrowth` | src/protohopz/protohopz.cpp:839-843 | k ACKs of congestion avoidance below the cap give c0² + 2k <= ck² <= c0² + 2.25k, for every k |
| `Congestion.AvoidanceRound` | src/protohopz/protohopz.cpp:839-843 | floor(c0) such ACKs grow the window by at most 1 |
| `Congestion.SlowStart` | src/protohopz/protohopz.cpp:834-838 | n slow-start ACKs grow the window by exactly n until it reaches the threshold or the cap |
| `Congestion.RecoveryAfterTimeout` | src/protohopz/protohopz.cpp:693-702 | after a timeout pass at window c, n = ceil(threshold - 1) ACKs and none fewer bring the window to 1 + n, at or above the threshold, c/2 but at least 2; the next ACK adds exactly 1/(1 + n) |
| `Congestion.CollapseHalves` | src/protohopz/protohopz.cpp:693-702 | a timeout pass at window c sets the window to 1 and the threshold to c/2 when c is at least 4, and to 2 otherwise |
| `Congestion.CapIsReached` | src/protohopz/protohopz.cpp:834-848 | growth stops at exactly 1024 |
| `Reorder.ReorderBuffer.Receive` | src/protohopz/protostream.cpp:206-253 | one DATA packet: drop, duplicate check, hard-cap reset, insertion and flush, refining the pure step |
| `Reorder.ReorderBuffer.FlushReady` | src/protohopz/protostream.cpp:242-253 | the flush loop pushes the gap-free run starting at the expected number |
| `Reorder.BufferFitsWindow` | src/protohopz/protostream.cpp:213-238 | the buffer never holds more than 65536 packets, and when it does hold them it is exactly the whole window above the expected number |
| `Reorder.ResetOnlyOnExpected` | src/protohopz/protostream.cpp:230-236 | with a full buffer a packet is admitted if and only if it is the expected one, so the reset never skips a number |
| `Reorder.ResetDiscardsWindow` | src/protohopz/protostream.cpp:230-253 | the reset releases one chunk and throws away 65536, where without it the flush would release all 65537 |
| `Reorder.AcceptIsSafe` | src/protohopz/protostream.cpp:206-253 | every packet keeps the buffer inside the window and the released chunks a gap-free run from 1 of what was submitted |
| `Reorder.OnlyNewChanges` | src/protohopz/protostream.cpp:206-228 | a packet changes the stream if and only if it is within the window and neither released nor held, whatever it carries |
| `Reorder.ExpectedAdmittedUntilWrap` | src/protohopz/protostream.cpp:213-218 | the expected packet is admitted if and only if the 32-bit sum expected + 65536 does not wrap |
| `Reorder.ReleasedIsLongestRun` | src/protohopz/protostream.cpp:186-253 | the released chunks are exactly the longest gap-free run from 1 of all numbers received and the buffer holds exactly the rest, if and only if no arrival was dropped as out of window or fired the reset |
| `ProtoHopZs.ProtoHopZ.constructor` | include/protohopz/protohopz.hpp:63-105 | at the end of the handshake, before the ACK of its own handshake packet, the object is in a state runs start from: number 0 in flight, window 64, threshold 64 |
| `ProtoHopZs.ProtoHopZ.SendPacket` | src/protohopz/protohopz.cpp:335-432 | one turn of the admission loop: stored error, full window, or admission |
| `ProtoHopZs.ProtoHopZ.Admit` | src/protohopz/protohopz.cpp:370-432 | a number is assigned; the packet is sealed, registered and handed to the socket, or the number is used up by a failure |
| `ProtoHopZs.ProtoHopZ.OnSendError` | src/protohopz/protohopz.cpp:434-443 | a failed send forgets its packet, passes the window on and signals an empty table |
| `ProtoHopZs.ProtoHopZ.AckHandler` | src/protohopz/protohopz.cpp:816-858 | an effective ACK removes its packet, grows the window, wakes one sender and signals an empty table; any other changes nothing |
| `ProtoHopZs.ProtoHopZ.Receive` | src/protohopz/protohopz.cpp:575-664 | one datagram of the peer, by type |
| `ProtoHopZs.ProtoHopZ.ReceiveData` | src/protohopz/protohopz.cpp:592-635 | DATA: size check, ACK, duplicate check, decryption, record and queue, in this order |
| `ProtoHopZs.ProtoHopZ.ReceiveHandshake` | src/protohopz/protohopz.cpp:637-662 | HANDSHAKE: the same without decryption |
| `ProtoHopZs.ProtoHopZ.ListTimedOut` | src/protohopz/protohopz.cpp:685-691 | the list holds each packet last sent more than 128 ms ago exactly once, and no other |
| `ProtoHopZs.ProtoHopZ.SendAck` | src/protohopz/protohopz.cpp:738-766 | an ACK carries the number it acknowledges |
| `ProtoHopZs.ProtoHopZ.Scan` | src/protohopz/protohopz.cpp:674-703 | the head of a timeout pass: idle limit, list of the overdue, window collapse |
| `ProtoHopZs.ProtoHopZ.ResendNext` | src/protohopz/protohopz.cpp:487-515 | the next listed packet is sent again unless it was acknowledged meanwhile |
| `ProtoHopZs.ProtoHopZ.ResendDone` | src/protohopz/protohopz.cpp:524-532 | the send time is renewed unless the packet was acknowledged meanwhile |
| `ProtoHopZs.ProtoHopZ.StoreLoopError` | src/protohopz/protohopz.cpp:144-176 | the first loop error is stored, one sender and all drains are woken and a marker is queued |
| `ProtoHopZs.ProtoHopZ.WaitInFlightDrained` | src/protohopz/protohopz.cpp:768-799 | a drain answers at once or registers before anything can empty the table |
| `ProtoHopZs.ProtoHopZ.DrainTimer` | src/protohopz/protohopz.cpp:788-799 | the timer wins: the parked wait is cancelled |
| `ProtoHopZs.ProtoHopZ.DrainResume` | src/protohopz/protohopz.cpp:801-813 | the answer is true exactly when nothing is in flight and no loop error is stored |
| `ProtoHopZs.ProtoStream.Send` | src/protohopz/protostream.cpp:44-64 | the 1400-byte gate, then the transport |
| `ProtoHopZs.ProtoStream.ReceiveChunk` | src/protohopz/protostream.cpp:186-259 | one turn of the chunk loop: packets other than DATA are skipped |
| `Link.ActKeepsTx` | src/protohopz/protohopz.cpp:370-443 | every step keeps the sender's ledger: each assigned number is in flight, acknowledged or failed, and every datagram in flight is the one recorded for it |
| `Link.ActKeepsInbound` | src/protohopz/protohopz.cpp:592-634 | every step keeps the receiver's side: each number queued once with its plaintext, every ACK sent for a number held or carrying nothing, and nothing released is taken back |
| `Link.StepKeepsSystem` | src/protohopz/protohopz.cpp:330-858 | every step of either endpoint keeps the invariant of both directions |
| `Link.RunKeepsSystem` | src/protohopz/protohopz.cpp:330-858 | so does every run |
| `Calls.NumbersCarrySubmitted` | src/protohopz/protohopz.cpp:326-450 | in every run each number carries the payload that the send event of its call submitted, a waiting call holds the payload submitted to it, and no call has two numbers |
| `Calls.AdmittedIff` | src/protohopz/protohopz.cpp:345-371 | a call that runs without a stored error is given a number if and only if fewer packets are in flight than floor(cwnd) and than 1024; otherwise it is parked behind the others with its payload |
| `Calls.CallAnswers` | src/protohopz/protohopz.cpp:335-450 | a call answers no error if and only if its socket send completed; otherwise the size gate, the socket, the cipher or the stored loop error, by its history; its number counts as failed if and only if it answered an error |
| `Calls.AwaitedCallsKeepTheirOrder` | src/protohopz/protostream.cpp:44-64 | if a side makes a call only after every earlier one has answered without an error, its payloads are numbered in calling order and at most the last has no number |
| `Delivery.PayloadsAreSubmitted` | src/protohopz/protohopz.cpp:370-371 | the ledger of a run carries exactly what its send events submitted, in the order of the numbers |
| `Calls.AdmissionSendsIff` | src/protohopz/protohopz.cpp:370-432 | in every run a call with room uses up the next number, and its datagram joins what is in flight and reaches the socket if and only if the cipher succeeds; it carries that number and opens to the payload submitted; else the call answers the cipher's error |
| `Calls.AttemptSends` | src/protohopz/protohopz.cpp:370-432 | whatever the payload and the cipher give, it goes out if and only if it has at most 1400 bytes and its sealing at most 1428, and its call otherwise answers which of the checks failed |
| `Delivery.PrefixSafety` | src/protohopz/protostream.cpp:186-253 | in every run the released chunks are a prefix of the payloads the send events submitted, in order and each once, resets and out-of-window drops included |
| `Delivery.ExactlyOnce` | src/protohopz/protohopz.cpp:592-634 | a number enters the receive queue at most once, with the plaintext submitted, and all datagrams ever sent for it are identical |
| `Delivery.AckSoundness` | src/protohopz/protohopz.cpp:370-449 | every assigned number is in flight, acknowledged or reported failed; an acknowledged one is held by the peer if and only if its payload is not empty |
| `Delivery.DrainedMeansHeld` | src/protohopz/protohopz.cpp:768-814 | a drain answers true exactly when nothing is in flight and no error is stored, and then the peer holds every non-empty packet whose send succeeded |
| `Delivery.NothingLostIff` | src/protohopz/protostream.cpp:213-236 | whether any take of the run dropped a packet or fired the reset can be read off the numbers taken, in their order |
| `Delivery.EverythingIsReleased` | src/protohopz/protostream.cpp:186-253 | with nothing in flight, no failed send, no empty payload and an empty queue, every payload submitted has been released if and only if no packet of the run was dropped as out of window or fired the reset |
| `Delivery.LostForever` | src/protohopz/protostream.cpp:213-218 | a number acknowledged but no longer held by the stream is never released in any continuation, nor anything after it |
| `Delivery.OutOfWindowIsLostForever` | src/protohopz/protostream.cpp:213-218 | dropping a packet as out of window stalls the stream before it in every continuation |
| `Delivery.ResetIsLostForever` | src/protohopz/protostream.cpp:230-236 | after a hard-cap reset exactly one more chunk is ever released |
| `Delivery.ReadyGrows` | src/protohopz/protostream.cpp:249-249 | chunks released are never taken back |
| `Wakeup.WindowBounds` | src/protohopz/protohopz.cpp:831-848 | in every state of every run 1 <= cwnd <= 1024, 2 <= ssthresh <= 512 and at most 1024 packets are in flight |
| `Wakeup.AdmissionFitsWindow` | src/protohopz/protohopz.cpp:345-417 | right after an admission the packets in flight fit floor(cwnd) |
| `Wakeup.NoLostWakeup` | src/protohopz/protohopz.cpp:345-368 | before a loop error, in every run without a woken send failing to encrypt, a parked sender always has a packet in flight or a woken sender ahead of it |
| `Wakeup.FailedSealStallsIff` | src/protohopz/protohopz.cpp:391-397 | a woken send that fails to encrypt stalls the parked ones if and only if some are parked, nothing is in flight and no other woken sender remains |
| `Wakeup.StallLasts` | src/protohopz/protohopz.cpp:345-397 | such a stall is not undone by any step but a new send, a send error or a loop error |
| `Wakeup.NoLostDrainSignal` | src/protohopz/protohopz.cpp:778-799 | while no loop error is stored, no drain waits on an empty table |
| `Wakeup.EmptyingResumesDrains` | src/protohopz/protohopz.cpp:438-441 | the step that empties the table or stores a loop error resumes every waiting drain |
| `History.WindowFollowsEvents` | src/protohopz/protohopz.cpp:831-848 | in every run the window is exactly what its effective ACKs and timeout passes make of it; nothing else moves it |
| `History.PassHalvesThreshold` | src/protohopz/protohopz.cpp:693-702 | in every run a timeout pass that finds anything overdue at window c leaves window 1 and threshold c/2, but at least 2 |
| `History.AckReleasesOneSender` | src/protohopz/protohopz.cpp:845-849 | an effective ACK makes exactly the longest parked sender runnable and moves no other call |
| `History.IdleTimeoutIff` | src/protohopz/protohopz.cpp:676-683 | a timeout pass gives the connection up if and only if the peer's last datagram arrived at least 60 seconds ago |
| `History.OverdueIff` | src/protohopz/protohopz.cpp:685-691 | a pass lists exactly the packets in flight whose last transmission is more than 128 ms ago |
| `History.FailedIsSilent` | src/protohopz/protohopz.cpp:144-176 | the first loop error is final: afterwards no number is assigned, no datagram sent or recorded as received, no chunk released, and the error stays |
| `History.ParkedAfterError` | src/protohopz/protohopz.cpp:434-443 | with a loop error stored, each send that fails wakes one parked sender and nothing else wakes any |
| `History.ErrorStrandsSenders` | src/protohopz/protohopz.cpp:144-176 | of the senders parked when a loop error is stored the oldest is woken by it and one more by each later send that fails; the others stay parked in every continuation |
| `History.MarkerIff` | src/protohopz/protohopz.cpp:165-175 | in every run exactly one END_TRANSFER marker has entered the reader's queue if a loop error is stored, numbered one past the next number and last of all, and none otherwise |
| `History.StoringQueuesMarker` | src/protohopz/protohopz.cpp:144-176 | the step that stores a loop error adds exactly the marker to the queue, at the end |
| `Datagrams.RecordsFollow` | src/protohopz/protohopz.cpp:575-664 | in every run a number is acknowledged if and only if an ACK of it arrived while it was in flight, received if and only if a datagram of it arrived that fits and decrypts, and answered with an ACK if and only if one arrived that fits |
| `Datagrams.ErrorIsFirstCause` | src/protohopz/protohopz.cpp:144-176 | in every run the loop error stored is the first there was a cause for: an oversized datagram, one that does not decrypt and is new, 60 seconds of silence, a failed resend |
| `Datagrams.DrainAnswers` | src/protohopz/protohopz.cpp:768-814 | a drain is answered only by its own call or when it runs again, and true if and only if nothing is in flight and no error is stored then |
| `Datagrams.PassWorksThroughList` | src/protohopz/protohopz.cpp:704-721 | in every run a timeout pass takes one number of its list a turn, in order, and drops none |
| `Datagrams.ActOnPending` | src/protohopz/protohopz.cpp:487-533 | a turn sends the packet of its number again if and only if it is still in flight; no other step touches the list of a pass under way |
| `Datagrams.FlightIff` | src/protohopz/protohopz.cpp:413-449 | in every run a number assigned is in flight if and only if it was neither acknowledged nor reported as failed |
| `Counterexamples.EmptyPayloadIsAckedNotHeld` | src/protohopz/protohopz.cpp:600-620 | a run of five steps after which a drain has answered true for a packet the peer does not hold, nothing having failed on the sender's side |
| `Counterexamples.FailedSealLosesWakeup` | src/protohopz/protohopz.cpp:391-397 | a run of four steps after which a sender is parked with nothing in flight and no woken sender, no error stored |
| `Losses.ResetIsReachable` | src/protohopz/protostream.cpp:230-236 | whatever the payloads and their sealed bodies, there is a run from the start after which the buffer is full, everything in it acknowledged, and the expected packet is next in the queue, so the next take fires the reset |
| `Losses.DropIsReachable` | src/protohopz/protostream.cpp:213-218 | likewise a run after which a packet outside the window is next in the queue |
| `Losses.SmallTransfersLoseNothing` | src/protohopz/protostream.cpp:213-236 | in every run a direction that has carried at most 65536 payloads has dropped nothing and fired no reset |
| `Progress.WithoutSendsTableShrinks` | src/protohopz/protohopz.cpp:816-826 | with no new send the packets in flight only shrink, and each effective ACK removes exactly its own |
| `Progress.EveryPassDrains` | src/protohopz/protohopz.cpp:704-721 | from any reachable state, in every continuation without new sends in which each packet in flight arrives once more and its ACK comes back later, in any order and with anything in between, nothing is left in flight |
| `Progress.LosslessPassDrains` | src/protohopz/protohopz.cpp:685-721 | such a continuation always exists: from any reachable state in which all packets in flight have timed out and the peer listens, one timeout pass can resend each, have it answered and leave none |
| `Resending.ActEmits` | src/protohopz/protohopz.cpp:370-766 | what a step adds to the datagrams sent is exactly what it hands to the socket by itself |
| `Resending.PassResendsAll` | src/protohopz/protohopz.cpp:674-721 | when a timeout pass is due, the timeout loop can hand every packet in flight to the socket once more, in whatever order the table yields them, and changes nothing else in flight |
| `Recovery.CanRelease` | src/protohopz/protohopz.cpp:370-858 | from every reachable state without errors in which nothing that arrived is lost or must be and a timeout pass is due, resending everything in flight and delivering it, the expected number first, releases every payload submitted and leaves nothing in flight: every datagram that arrives in the continuation was handed to a socket in it, so all those sent before may be lost for good |
| `Doomed.ReleaseNeedsRecoverable` | src/protohopz/protostream.cpp:213-236 | from any reachable state at all: if some continuation releases everything submitted so far, then nothing that has arrived is lost or must be |
| `Doomed.CanReleaseIff` | src/protohopz/protostream.cpp:213-236 | in such a state some continuation releases everything submitted if and only if all that entered the queue loses nothing when taken and leaves the buffer below its cap |
| `Ftp.ParseAsBytes` | include/ftp_packet.hpp:47-58 | parsing a framed packet gives it back, whatever follows it in the chunk |
| `Ftp.AsBytesParse` | src/receiver/receiver.cpp:145-158 | an accepted chunk starts with the framing of exactly the packet read from it |
| `Ftp.RefusedIffUnframed` | src/receiver/receiver.cpp:145-157 | a chunk is malformed if and only if no packet's framing is a prefix of it |
| `Ftp.DecodeEncodeLink` | src/sender/sender.cpp:108-124 | decoding an encoded symlink payload gives path and target back |
| `Ftp.EncodeDecodeLink` | src/receiver/receiver.cpp:14-38 | re-encoding any accepted symlink payload gives the same bytes |
| `Ftp.LinkRefusedIff` | src/receiver/receiver.cpp:20-28 | a symlink payload is refused if and only if it encodes no path and target |
| `Ftp.AnnouncementRoundTrip` | src/receiver/receiver.cpp:69-80 | the receiver reads the total the sender announced |
| `Ftp.AnnouncementReadIff` | src/receiver/receiver.cpp:69-80 | a total is read from the first chunk if and only if the chunk starts with a packet whose payload starts with that total in 64 bits, whatever the packet's type |
| `Paths.TextRoundTrip` | src/utils/file_builder.cpp:258-272 | the text of a walked path is accepted and read back as the same path |
| `Paths.AcceptedStaysInside` | src/utils/file_builder.cpp:19-23 | no name of an accepted path is "..", "." or empty once resolved; where the names lead is the matter of `Visibility.LinkFreeIsSilent` |
| `FileTree.MkdirsSucceedsIff` | src/utils/file_builder.cpp:65-66 | creating a directory path succeeds if and only if, every link followed, all its components lead to a directory, or some first components lead to one in which the next is missing |
| `FileTree.MkdirsMakes` | src/utils/file_builder.cpp:65-66 | it then leads to a directory, and only missing directories on the way to it were added: none, if it led to one before |
| `Links.LinkReads` | src/utils/file_builder.cpp:81-85 | following a link reads the names of its whole target, from the link's own directory or from the root if it starts with a slash |
| `Links.LinkReaches` | src/utils/file_builder.cpp:81-85 | a link to "x/y" reaches y in the directory x beside it, a link to "/x" reaches x in the root |
| `Links.LoopIsRefused` | src/utils/file_builder.cpp:81-87 | a link to itself cannot be followed |
| `Links.NamesStop` | src/utils/file_builder.cpp:81-85 | a file among the names before the last, or nothing, ends the way with the error for it |
| `FileBuilders.FileBuilder.constructor` | src/utils/file_builder.cpp:26-53 | a fresh staging directory in the output directory, no stream open |
| `FileBuilders.FileBuilder.ValidateRelativePath` | src/utils/file_builder.cpp:258-272 | the scan accepts exactly the non-empty relative paths without forbidden parts |
| `FileBuilders.FileBuilder.CreateDirectory` | src/utils/file_builder.cpp:55-67 | creates the staged directory and its parents where the links on its path lead, with the source's error cases |
| `FileBuilders.FileBuilder.CreateFile` | src/utils/file_builder.cpp:69-95 | truncates or creates the file the staged path leads to, writes out the buffer of the stream the id had, and binds a new stream at position 0 to the id |
| `FileBuilders.FileBuilder.CreateSymlink` | src/utils/file_builder.cpp:97-126 | places a link only where nothing is, in the directory the path leads to |
| `FileBuilders.FileBuilder.Write` | src/utils/file_builder.cpp:128-141 | data joins the stream's buffer, and as much as the library decides is written at the stream's position |
| `FileBuilders.FileBuilder.FlushFile` | src/utils/file_builder.cpp:89-92 | a stream's buffer is written at its position |
| `FileBuilders.FileBuilder.CloseFile` | src/utils/file_builder.cpp:143-156 | writes the buffer out and forgets the stream |
| `FileBuilders.FileBuilder.CloseAll` | src/utils/file_builder.cpp:242-256 | writes out every buffer, in the order of the table, and forgets all streams |
| `FileBuilders.FileBuilder.Commit` | src/utils/file_builder.cpp:158-228 | closes the streams, then the commit loop: entry by entry over the walk, then staging removed; over a walk of the staged tree it succeeds if and only if the trees are compatible and leaves exactly the overlay |
| `FileBuilders.FileBuilder.Cleanup` | src/utils/file_builder.cpp:230-240 | closes the streams, which writes their buffers out, and removes the staging tree and nothing else |
| `FileBuilders.CommitNext` | src/utils/file_builder.cpp:177-224 | committing one entry succeeds if and only if it fits what is visible at its path, and extends the overlay by exactly it |
| `FileBuilders.CommitMoves` | src/utils/file_builder.cpp:177-224 | what was committed has left staging if and only if it is not a directory |
| `FileBuilders.CommitIsOverlay` | src/utils/file_builder.cpp:158-228 | over any walk order, commit succeeds if and only if directories meet only directories and the rest only the rest; then every staged path has its staged node under the output directory, every other path of the file system its old one |
| `Straying.DirectorySeen` | src/utils/file_builder.cpp:55-67 | CREATE_DIRECTORY changes what is outside the staging directory, now or when the streams close, if and only if its path leads outside to a directory that is missing |
| `Straying.FileSeen` | src/utils/file_builder.cpp:69-95 | CREATE_FILE does if and only if it creates a directory outside or leads to a file there that is missing or has content |
| `Straying.LinkSeen` | src/utils/file_builder.cpp:97-126 | CREATE_SYMLINK does if and only if it creates a directory or places its link outside |
| `Straying.WriteSeen` | src/utils/file_builder.cpp:128-141 | FILE_DATA does if and only if it is not empty and its stream writes a file outside |
| `FileTransfers.PercentExactIff` | src/file_transfer.cpp:43-45 | the percentage is the true one rounded down if and only if 100 times the bytes transferred fits 64 bits |
| `FileTransfers.PastTotalIff` | src/file_transfer.cpp:43-45 | once the announced total is reached or passed, 100 is shown if and only if the percentage fits 16 bits or its low 16 bits are at least 100 |
| `FileTransfers.MeterIsTruthful` | src/file_transfer.cpp:37-57 | for any sequence of sizes within the total, the percentages printed grow strictly within 1..100 and the last is the true one |
| `FileTransfers.HundredIff` | src/file_transfer.cpp:37-57 | for any sizes within the total, 100 is printed if and only if they sum to the total and 100 times the total fits 64 bits |
| `FileTransfers.FileTransfer.PrintProgress` | src/file_transfer.cpp:37-57 | one update of the meter in 64-bit arithmetic |
| `Senders.ChunksAreTheFile` | src/sender/sender.cpp:177-201 | the read loop makes n/1392 + 1 chunks, all but the last full and the last not, whose concatenation is the file |
| `Senders.StreamFitsTransport` | src/sender/sender.cpp:76-228 | every chunk of a transfer has 8 to 1400 bytes |
| `FileIds.TreeIsNumbered` | src/sender/sender.cpp:137-163 | the k-th directory or file created, counting from 0, carries the id k modulo 2^32 |
| `FileIds.IdsAreDistinct` | src/sender/sender.cpp:137-163 | no two of the first 2^32 directories and files share an id |
| `FileIds.DataBelongsToItsFile` | src/sender/sender.cpp:157-217 | every FILE_DATA and END_FILE packet carries the id of the last CREATE_FILE before it |
| `Senders.LinkSentIff` | src/sender/sender.cpp:108-124 | a link is sent if and only if its payload has at most 1392 bytes |
| `Senders.Sender.TransferConfirmation` | src/sender/sender.cpp:26-45 | announces the sum of all file sizes, added in 64 bits |
| `Senders.Sender.SendContent` | src/sender/sender.cpp:177-201 | the read loop sends exactly the data packets of the file, or as many as are accepted before an error, and meters them |
| `Senders.Sender.SendFile` | src/sender/sender.cpp:167-214 | CREATE_FILE, the content, END_FILE, or the part sent before an error |
| `Senders.Sender.PathHandler` | src/sender/sender.cpp:92-228 | one entry by kind, with the size check of links and the id counter |
| `Senders.Sender.StartTransfer` | src/sender/sender.cpp:66-90 | sends the packets of the whole tree, or a prefix of them; it succeeds if and only if no send failed and every link fits |
| `Receivers.ByteConservation` | src/receiver/receiver.cpp:212-224 | bytes written plus bytes remaining is the announced total at every step |
| `Receivers.EndAcceptedIff` | src/receiver/receiver.cpp:252-264 | END_TRANSFER is accepted if and only if the FILE_DATA sizes sum to the announced total |
| `Receivers.HundredMeansNothingRemains` | src/receiver/receiver.cpp:224-228 | the receiver has shown 100% if and only if no byte remains and 100 times the announced total fits 64 bits |
| `Receivers.TransferSucceedsIff` | src/receiver/receiver.cpp:131-173 | the loop ends if and only if some first chunks carry an accepted stream with END_TRANSFER |
| `Visibility.NothingVisibleBeforeCommit` | src/receiver/receiver.cpp:131-166 | over any accepted packets: at every point before commit everything outside the staging directory is as it was and stays so when the streams close, if and only if no packet strays, that is, creates, truncates, links or fills something outside |
| `Visibility.RefusalRestoresOutput` | src/receiver/receiver.cpp:160-165 | after a packet is refused and the transfer cleaned up, the file system is exactly what it was, if and only if the refused packet did not stray |
| `Visibility.FailureRestoresIff` | src/receiver/receiver.cpp:131-166 | wherever a stream of chunks breaks off or is refused the file system is what it was, if and only if no packet handled strays |
| `Visibility.LinkFreeIsSilent` | src/utils/file_builder.cpp:55-126 | no packet strays if no path passes through or ends at a link created earlier in the stream |
| `Visibility.LinkLeadsOut` | src/utils/file_builder.cpp:81-85 | two accepted packets create a file in the output directory before commit |
| `FileContents.FilesHoldWhatWasSentIff` | src/utils/file_builder.cpp:85-156 | however files interleave and whatever links their paths go through: at every point each file opened holds, once the streams are closed, exactly the FILE_DATA sent to streams writing it since it was last opened, if and only if no file was opened while a stream writing it had bytes in its buffer and no stream wrote anywhere but at the end of what was sent |
| `FileContents.FilesHoldWhatWasSent` | src/receiver/receiver.cpp:188-250 | so it is when no packet opens a file that a stream has open |
| `FileContents.PacketAcceptedIff` | src/receiver/receiver.cpp:175-274 | a packet is accepted if and only if it is of one of the six handled kinds and meets that kind's condition |
| `FileContents.RefusedSpendsNothing` | src/receiver/receiver.cpp:212-228 | a refused packet takes nothing off the bytes remaining and does not end the stream |
| `FilePackets.PacketsTell` | src/receiver/receiver.cpp:188-250 | if no path passes through a link, the packets alone say which files are open and what was sent for each |
| `FilePackets.PlainFilesHoldWhatWasSent` | src/receiver/receiver.cpp:188-250 | a condition on the packets alone: if moreover no file is created while open, every file created holds what the packets sent for it |
| `FilePackets.AgainKeepsOldBytes` | src/utils/file_builder.cpp:85-92 | create, data, create again under the same id, shorter data, end: all accepted, and the file ends with bytes of the first data if the library kept both in its buffer |
| `Receivers.Receiver.TransferConfirmation` | src/receiver/receiver.cpp:58-80 | reads the announcement or refuses it as malformed |
| `Receivers.Receiver.HandlePacket` | src/receiver/receiver.cpp:175-274 | one packet by type, with the byte budget and the meter |
| `Receivers.Receiver.StartTransfer` | src/receiver/receiver.cpp:131-173 | the loop over chunks, cleanup on any failure, commit at the end |
| `RoundTrip.DirectoryArrives` | src/sender/sender.cpp:137-155 | a directory's packet creates it if and only if its path fits one packet |
| `RoundTrip.FileArrives` | src/sender/sender.cpp:157-217 | a file's packets create it with its content, use up its size and leave no stream open |
| `RoundTrip.LinkArrives` | src/sender/sender.cpp:97-131 | a link's packet creates it with its target |
| `RoundTrip.StreamRebuildsTree` | src/receiver/receiver.cpp:131-273 | the stream of a tree, in any walk order, is accepted through END_TRANSFER if and only if every directory path fits one packet; then the staged tree equals the source, no byte remains, no stream is open and everything outside is as it was |
| `RoundTrip.TransferIsOverlay` | src/utils/file_builder.cpp:158-228 | commit after that succeeds if and only if source and output are compatible, and leaves the old file system with the source laid over the output directory |
| `SenderLinks.SenderIsLinkFree` | src/sender/sender.cpp:92-228 | no path of a transferable tree's stream, in any walk order, passes through or ends at a link created earlier in it |
| `EndToEnd.PacketSurvives` | src/protohopz/protohopz.cpp:377-411 | a packet survives framing, the 1400-byte gate, sealing by 28 bytes, the 1428-byte check, opening and parsing unchanged |
| `EndToEnd.SenderLeavesNoTrace` | src/receiver/receiver.cpp:131-166 | wherever that stream breaks off, or is refused for a directory path that does not fit, the file system is left as it was |
| `EndToEnd.OutcomeOfPrefix` | src/receiver/receiver.cpp:58-173 | of any first part of a transfer the receiver refuses nothing; it ends if and only if the part is the whole, and else the file system is left as it was |
| `EndToEnd.TransferIsSafe` | src/protohopz/protostream.cpp:186-253 | in every run of the transport carrying a transfer, the receiver refuses nothing and ends only with the whole stream; then it has staged exactly the source tree, all else in the file system untouched; if the stream breaks off before, the file system is left as it was |
| `EndToEnd.TransferIsDelivered` | src/receiver/receiver.cpp:131-173 | when nothing is in flight, no send failed and the queue is empty, the transfer ends on the other side if and only if the stream lost nothing; then commit succeeds if and only if the trees are compatible and leaves exactly the overlay |
| `EndToEnd.TransferCanFinish` | src/receiver/receiver.cpp:131-173 | from every reachable state in which the whole transfer was sent, no error is stored, no send failed, nothing that arrived is lost or must be and a timeout pass is due, there is a continuation, living on the datagrams it sends itself, in which the transfer ends and commit succeeds if and only if the trees are compatible, leaving exactly the overlay |

## Left out

- Sockets, executors and coroutines: each piece of code between two suspension points is one step, on the
  strand the source promises; the interleaving of steps is free.
- The handshake, key agreement and the OpenSSL calls: the cipher is a parameter.
- `stop_loops`, restarting a stream and `close` after its drain: runs end before them.
- Sequence numbers beyond 2^32: theorems about runs require at most 2^32 - 65537 numbers in each direction.
- Rounding of the floating-point window: it is a real number.
- The end marker that a stream error pushes into the chunk queue, and the parked `receive` call: the chunks released are a
  history, and a reader takes them in order.
- Datagrams that the peer never sent, from other senders or with a damaged header: the receive loop ignores
  other endpoints, and the peer's own datagrams arrive whole or not at all.
- Wakeup.NoLostWakeup: excludes woken sends that fail to encrypt, for which it is false.
- Progress.LosslessPassDrains: every packet in flight must have timed out and the peer must still listen and hold or be able to
  open each of them; a packet the peer refuses stops the pass.
- Recovery.CanRelease: both ends must be up, no pass under way, everything in flight overdue and the peer heard of within the
  idle limit; a stored loop error ends the connection for good.
- EndToEnd.TransferIsSafe: the payloads submitted are a first part of the transfer's chunks, and nothing else is submitted; for a side
  that awaits its sends in order, as the sender does, `AwaitedCallsKeepTheirOrder` gives this. The confirmation the other way is an
  ordinary payload of the other direction.
- Links in the path of the output directory itself, hard links, and writes to the output directory by other programs meanwhile.
- Which error code the library reports when directories cannot be made; that it reports one is modelled exactly.
- The packet a reader takes off the queue after a loop error, only to learn of the error.
- Operating-system failures, permissions, file names with NUL bytes, and the file walker itself: a walk is any list that
  yields each path once, directories before what is in them.
- A source whose file path is longer than 1392 bytes: the sender ignores the refusal and sends a header with
  an uninitialised size.
- Unsupported file types, which the walker skips, and a source tree that changes while it is sent.
- A commit that fails part way: only that it fails is stated. A staged path that begins with the staging directory's own
  name is excluded.
- The console prompt, logging and error texts.
