# A verified model of the sliding window protocol

Two sessions exchange messages over a network that may lose, duplicate and reorder
packets. Each session numbers the messages it sends, keeps every unacknowledged one in
a ring of slots and in two retry indices, sends it again when its deadline passes, and
sends new ones only while the peer advertises room. Each session also receives: it
buffers what arrives out of order, hands messages over in order, and acknowledges what
its application consumed. A small connection state machine opens and closes sessions.
This project models those parts of the repository in Dafny and proves what they promise.

## How it is built

The code that changes state in place is modelled as classes, and every method of a class
is proved equal to a function on values:

- `Retree.dfy`, `SenderState.dfy`: the retry trees and the send loop (`SenderState`).
- `RecvState.dfy`: the receive loop (`RecvState`), with its ring and its read loops.
- `Connection.dfy`: `UpdateTcp`, `doTcpAction`, `setupRetry`, `retryCheck`, `doNextEvent`.
- `Swp.dfy`: one whole endpoint (`SWP`); each of its methods is one arm of a loop, and is
  proved to be exactly one step `Act` of the protocol in `Protocol.dfy`.
- `Flow.dfy`, `Session.dfy`, `Ring.dfy`, `Stats.dfy`: the flow record, `Write`, the event
  ring, and the running statistics.

`Sender.dfy`, `Receiver.dfy`, `Conn.dfy`, `Tcp.dfy`, `Packets.dfy` and `Slots.dfy` hold the
value functions. `Protocol.dfy` joins two endpoints and the packets on their way into a
`World` and defines its runs: any sequence of pushes, retries of any subset of the indexed
frames, deliveries, reads, keepalives, closes, connect requests, retry timers and losses,
at either end. A delivered packet stays in the network, so it can arrive again, and any
packet on its way can be delivered next. A push into a slot whose frame is still indexed is
not a step but the outcome `Overrun`: it changes a key inside both retry trees, and what the
trees do from then on depends on their shape. `Windows.SlotsFreeExactly` shows that no run
meets it if and only if the peer's window is no larger than the own one, and then the runs
are all that the code does. On top of it:

- `Links.dfy`, `Ledgers.dfy`, `Safety.dfy`: the invariant of a link, kept by every step.
- `Theorems.dfy`: what holds after every run. `EndToEnd.dfy`: from `Write` to `Read`.
- `Records.dfy`, `Offers.dfy`, `Gate.dfy`, `Reading.dfy`, `Reactions.dfy`: what each step does,
  without naming the functions of the model: the state that the packets of a run determine,
  what is advertised and acknowledged, what the gate lets through, what a read consumes, and
  what a packet without data changes.
- `Windows.dfy`: when the send ring is large enough, and what happens when it is not.
- `Adverts.dfy`: when a receiver advertises more than its window.
- `Handshake.dfy`, `Opening.dfy`, `Progress.dfy`: connection set-up.
- `Liveness.dfy`, `Wedge.dfy`, `Freshness.dfy`, `Deadlock.dfy`: from which states everything
  can still be delivered.
- `Scenarios.dfy`, `Stalemate.dfy`: runs that reach the states in which it cannot.

## Findings

- `LastFrameClientConsumed` starts at 0 and `LastMsgConsumed` at -1, so acknowledgement
  number 0 is also sent when nothing was consumed. It takes frame 0 out of the retry
  indices (sender.go:354-371). If frame 0 is then lost, the link is wedged for ever:
  `Wedge.WedgeHappens` gives a run for any two sessions: a second copy of the SYN-ACK, whose
  number is 0, is enough.
- Without a `DestInbox` at either end nobody sends keepalives, and two send gates that
  stale packets have closed keep each other closed: `Stalemate.StalemateHappens` gives the
  run. Of runs with one dialler and without an `Overrun`,
  after which the dialler is Established and the passive end is too or still waits for the
  confirmation, `Deadlock.NeverWedged` shows that these two are the only ways to get stuck.
- `LastByteConsumed` starts as an index and then is a count. A receiver whose application
  has consumed everything, and something, advertises one byte more than its window
  (recv.go:346, recv.go:578): `Adverts.ExcessExactly` and `Adverts.ExcessHappens`.
- The slot a new message takes is free in every run if and only if the peer's receive
  window is no larger than the own send window (`Windows.SlotsFreeExactly`). The code does
  not check it, and two sessions may be configured differently. With windows 1 and 2 the
  gate then never closes again, and all messages but the last are in no slot
  (`Windows.OverrunsForever`).
- The dialler confirms with one EstabAck and never repeats it. If it is lost, only a
  keepalive of the dialler completes the handshake, and a dialler without `DestInbox` sends
  none (sender.go:515). A passive end gives up after ten repetitions of its SYN-ACK.
  `Opening.HandshakeCompletes` has the exact condition, `Scenarios.ConfirmationLost` and
  `Scenarios.AnswersLost` reach both states. In the former data still gets through both ways
  (`Deadlock.StrandedDrains`).
- When both ends dial, the retry of the confirmation contradicts the check that there is no
  remote yet, and panics (recv.go:729-734): `Scenarios.BothDialPanics` gives the run.
- While frame 0 is acknowledged but missing, the new frame W is discarded like an old one
  (`Windows.NewFrameDiscarded`).
- `LastAckRec` is never advanced (sender.go:130, sender.go:391). In the model `acked` is
  `LastFrameSent` minus the number of frames in the indices.

## Model

| member | source | states |
|---|---|---|
| Theorems.InOrderDelivery | recv.go:491-545 | After every run each end has received exactly the frames 0 to NextFrameExpected - 1 of the other, payloads included, and the bytes its application got are a prefix of those pushed, counted exactly by LastByteConsumed. |
| Theorems.NoLoss | sender.go:351-371 | After every run each sent frame n >= 1 is in the retry indices or was consumed, and every AckNum on its way is 0 or at most the last message consumed. |
| Theorems.FlowControl | sender.go:232-240 | With W the send window, no run has LastFrameSent above the peer's LastFrameClientConsumed + W, or more than W held messages (W + 1 before the first consumption), however stale the advertisement; when the peer's window is no larger, the gate alone keeps every push below W. Held are all messages ready or buffered and none consumed or unseen. |
| Theorems.ByteLedgers | recv.go:431-440 | In every run MaxCumulBytesTrans is the length of frames 0 to LargestSeqnoRcvd, no packet on its way reaches a panic over cumulative counts or ring positions, and advertised and used byte capacity stay within their bounds. |
| Theorems.DiscardsAreOld | recv.go:497-521 | With equal windows a packet on its way that is not an old duplicate would be discarded if and only if it is frame W while frame 0 is missing. |
| Records.RecordHolds | recv.go:491-548 | After every run, at both ends: LargestSeqnoRcvd is the highest frame that arrived, NextFrameExpected the first that has not arrived in its window, the ring holds those behind it, RcvdButNotConsumed holds all that arrived above the last consumed, DiscardCount counts those outside the window; the retry indices hold the frames sent and never acknowledged by a packet that was taken, and both capacities are those of the last such packet, or the own window and 1 MiB. |
| Offers.StepOffers | recv.go:573-637 | In every step of every run: each acknowledgement reports the window minus the messages after the last consumed up to the highest that arrived, the byte window minus the bytes of those that the application has not got (and the one byte too many), the last message consumed, and room for no more than is not held; all other packets carry the flow record, which packets taken and acknowledgements bring up to date and nothing else. |
| Offers.StepPublishes | recv.go:546-549 | In every step of every run the number for keepalives becomes LastFrameClientConsumed exactly when NextFrameExpected rises, and keepalives carry it. |
| Offers.StepLearns | sender.go:406-420 | In every step a sender that knows its remote stays with it, and one that does not learns it from the first acknowledgement that names somebody. |
| Gate.GateExactly | sender.go:225-246 | After every run a message is taken if and only if the session is alive, the frames in the indices are fewer than the last offer of messages, and their bytes fewer than the last offer of bytes. |
| Gate.OfferLetsThrough | sender.go:332-371 | After any packet that was taken, exactly the frames above its AckNum stay in the indices, and a series of messages of any payloads is let through unacknowledged if and only if each finds room for a message and a byte in what that packet offered, and a slot. |
| Gate.LetThrough | sender.go:225-246 | The same from every state of a running sender. |
| Gate.KeepAliveAcknowledges | sender.go:527-546 | The keepalive of an end with a DestInbox takes every frame through the published number out of the peer's indices. |
| Theorems.AckAccounting | sender.go:354-371 | In every run NumBytesAcked of every account is the byte count of its frames that acknowledgements removed, each counted once. |
| Theorems.LinkDelivers | recv.go:523-545 | The link invariant gives in-order delivery and the byte prefix. |
| Theorems.LinkFlowControlled | recv.go:573-580 | The link invariant bounds in-flight and held messages by the send window. |
| Theorems.WindowsFixed | swp.go:212-222 | No run changes the windows or the destination of a session. |
| Theorems.SlotIsFree | sender.go:453-469 | When the gate is open and the peer's window is not larger, the slot of the next frame has left the indices. |
| EndToEnd.ByteStream | swp.go:579-624 | For all payloads written at one end, all runs and all read sizes, the bytes read at the other end are a prefix of the concatenated payloads. |
| EndToEnd.WriteAcknowledged | swp.go:586-636 | In every run of Writes, and of pushes of other accounts, the acknowledged byte count of a Write is at most its payload, and is all of it exactly when its marked last chunk was sent and acknowledged, however many of its chunks have been pushed. |
| EndToEnd.HistoryIsPushes | sender.go:445-476 | The send history of a run is the sequence of its pushes; retries, acknowledgements and everything else add nothing. |
| Windows.SlotsFreeExactly | sender.go:453-469 | In every run every push that the gate lets through leaves all frames in flight in slots of their own, if and only if the peer's window is no larger than the own one. |
| Windows.EveryPushSteps | sender.go:232-240 | With such a peer no push of any run is an Overrun, so the theorems about runs cover all that the code does. |
| Windows.OverrunsForever | sender.go:453-488 | With a ring of one slot and a peer that offered two, any number of messages is let through unacknowledged; only the last is in a slot, and none is credited. |
| Windows.NewFrameDiscarded | recv.go:503-520 | The exception of DiscardsAreOld is reached by any two sessions with equal windows. |
| SendLoop.OldestOverwritten | sender.go:453-464 | A push into a full ring leaves the oldest unacknowledged frame in no slot. |
| Adverts.ExcessExactly | recv.go:573-580 | After every run an end would advertise one byte more than its window exactly when its application has consumed every byte the receiver knows of, and has begun to; never more than one. |
| Adverts.DeliveryExceeds | recv.go:335-352 | Every delivery that leaves nothing ready or buffered is acknowledged with that capacity. |
| Adverts.ExcessHappens | recv.go:346-351 | Any two sessions do it with the first message, of whatever length. |
| Windows.LargerPeerOverruns | sender.go:232-240 | With a larger peer window there is a run whose gate is open while the whole ring is still indexed. |
| Liveness.BusyDrains | recv.go:335-352 | While anything is left to bring across, consume or acknowledge, retries, deliveries and one consumption suffice; no keepalive is needed. |
| Liveness.AdvanceAll | recv.go:523-548 | Retries and deliveries alone can bring every sent frame across. |
| Liveness.KeepAliveDrains | tcp.go:145-148 | A keepalive is answered with an acknowledgement that offers the whole window again, which reopens the gate. |
| Liveness.RetryDrains | recv.go:503-520 | The retry of an already consumed frame is answered with an acknowledgement that empties the indices. |
| Deadlock.NeverWedged | recv.go:144-147 | After every run with one dialler that left the dialler Established and the passive end Established or waiting for the confirmation, each direction can still be brought to the quiet state if and only if its frame 0 is safe (none sent, arrived, still indexed, or on its way), and some end has a DestInbox or the pair is not dead (both gates closed, nothing to retry, to repeat or to consume, no useful packet on its way). |
| Deadlock.StrandedDrains | sender.go:513-520 | Any two sessions can reach a state in which the handshake will never be completed and data still gets through both ways. |
| Deadlock.DrainsExactly | sender.go:513-520 | The same as a statement about every such state. |
| Deadlock.SafeDrains | sender.go:278-320 | From every state with both ends in use, frame 0 safe, and a DestInbox or a pair that is not dead, there is a continuation after which all frames are consumed, the indices are empty and the gate is open, even if stale acknowledgements had closed it. |
| Deadlock.AliveDrains | sender.go:278-320 | When nothing else is left to do, a keepalive, a repeated SYN-ACK, a retry, a push, a consumption or a packet on its way reopens the gate whenever there is one. |
| Deadlock.OverForever | sender.go:232-240 | From a dead pair no continuation opens a gate again. |
| Freshness.RunFresh | recv.go:573-580 | In every run the shared flow record offers room whenever everything that arrived is consumed, frame 0 is ready as soon as it arrives, and keepalives come only from ends with a DestInbox. |
| Stalemate.StalemateHappens | sender.go:346-347 | Any two sessions without a DestInbox can reach a dead pair of Established ends. |
| Wedge.WedgedForever | sender.go:278-320 | Once frame 0 is acknowledged, not arrived and not on its way, no continuation delivers everything. |
| Wedge.WedgeReachable | sender.go:354-371 | While an acknowledgement from before the first consumption is on its way, a push, a loss and that packet reach such a state. |
| Wedge.WedgeHappens | recv.go:591-636 | Any two sessions can reach it: after the handshake the first message is lost and the SYN-ACK, whose AckNum is 0, arrives again. |
| Handshake.HandshakeAgreement | recv.go:716-743 | In every run with one dialler, if either end is Established then the receivers of both ends hold the nonce of the other session, and so do the senders once their SendAck arm ran. |
| Handshake.HandshakePanicFree | recv.go:716-743 | In every run with one dialler no packet, duplicate, request or timer that can come next reaches a panic of the receive loop; that the two indices never differ in size is part of GotPack and PacketArrived. |
| Handshake.DiallerFirst | tcp.go:114-131 | A passive end is Established only after the dialler was, by EstabAck or by keepalive. |
| Handshake.StepShakes | recv.go:360-489 | Every step keeps the handshake invariant: who may say what, and who knows which nonce. |
| Handshake.DiallerActs | recv.go:248-308 | Every step of the dialler keeps: no remote nonce before the SYN-ACK, a pending request in SynSent, no retry in use. |
| Handshake.PassiveActs | retry.go:30-108 | Every step of the passive end, retries included, keeps its part of the invariant. |
| Handshake.CloseHandled | recv.go:455-488 | A FIN in Listen, SynReceived, SynSent or Established ends in Closed within the same step, after the callback and exactly one FinAck. |
| Reactions.Reacts | recv.go:445-489 | For every state and every event other than data: which answer is sent, the state afterwards, when the remote nonce is learned, when the callback is called, which states repeat their answer, and exactly when it panics. |
| Reactions.DialExactly | recv.go:248-308 | A connect request locks the session onto its remote, and sends a SYN that offers no room exactly in Listen and SynSent. |
| Reactions.TimerExactly | retry.go:30-75 | In every state: ten repetitions of the first answer, then the session ends; a retry of a state left since is dropped; and exactly when the repetition panics. |
| Reactions.OthersIgnored | recv.go:375-393 | A packet that is not taken changes nothing and is not answered, a SYN that was locked on to aside. |
| Reactions.TakesExactly | recv.go:362-393 | A packet is taken exactly if it comes from the remote session, if one is known, and is meant for this one, or for nobody in particular before the session is Established. |
| Reactions.FinCloses | recv.go:751-763 | In every run a FIN that a session takes before it is closing leaves it Closed, the application told if it asked to be, and exactly one FinAck, with the last message consumed, on its way. |
| Reactions.CloseReaches | sender.go:562-596 | From every state with both ends in use, the FIN of Session.Close can be delivered and does that to the peer, without changing the closing end. |
| Reactions.CalledBackOnce | recv.go:751-761 | In every run the callback is called at most once, and only on closing. |
| Opening.HandshakeCompletes | retry.go:30-75 | After every run with one dialler, both ends can still become Established if and only if neither is finished and the missing answer or confirmation is on its way or can still be sent. |
| Scenarios.ConfirmationLost | sender.go:513-520 | A dialler without a DestInbox can be Established while its peer never will be. |
| Scenarios.BothDialPanics | recv.go:729-738 | Any two sessions that dial each other reach a state in which the retry timer panics. |
| Scenarios.AnswersLost | retry.go:49-58 | When all ten repetitions of the SYN-ACK are lost, both ends are alive and never connect. |
| Opening.OpenConnects | recv.go:248-308 | From every such state dialling, retries, keepalives and deliveries complete the handshake. |
| Opening.StuckForever | retry.go:49-58 | From every other state no continuation does. |
| Progress.AtMostFiveSteps | tcp.go:86-175 | In every run of two endpoints the connection state of an endpoint changes in at most five steps. |
| Tcp.ChangesRaiseRank | tcp.go:86-175 | Every change of state raises a rank, for all sequences of events and connect requests. |
| Tcp.AtMostFiveChanges | tcp.go:86-175 | From Listen at most five changes happen, and five are possible. |
| Tcp.ClosedIsFinal | tcp.go:89-90 | No event leaves Closed. |
| Conn.EventRaisesRank | recv.go:455-488 | The whole doNextEvent loop raises the rank or leaves the state. |
| Safety.RunKeeps | recv.go:208-554 | Every run keeps the invariant of both directions. |
| Safety.StepKeeps | sender.go:216-427 | So does every single step at either end and every loss. |
| Safety.ActGood | recv.go:222-360 | Every arm of either loop, a push into a free slot among them, keeps the sender's bounds and the receiver's ledgers and sends only honest packets. |
| Links.PushKeeps | sender.go:445-488 | A push through the open gate into a free slot keeps numbering, byte totals and the in-flight bounds. |
| Links.GotPacketKeeps | sender.go:332-371 | Any packet that arrives keeps them; frames only leave the indices and each is credited once. |
| Ledgers.NoCumulPanic | recv.go:431-440 | Data, retried, duplicated and control packets in any order never trigger either panic. |
| Ledgers.DataReceivedKeeps | recv.go:491-548 | Storing, draining or discarding a data packet keeps window, history, held messages and ledgers. |
| Ledgers.DeliveredKeeps | recv.go:335-352 | Delivery of everything ready keeps the exact byte account. |
| Ledgers.ReadKeeps | recv.go:771-820 | So does a read of any size, with a packet left partly read. |
| Ledgers.HandedAndUnread | recv.go:335-346 | Bytes handed over plus bytes unread are the bytes of the frames received in order. |
| Receiver.RunIsMaximal | recv.go:529-545 | The drain delivers exactly the maximal contiguous run and leaves the rest. |
| Receiver.RunFitsWindow | recv.go:529-545 | The run has at most RecvWindowSize packets. |
| Receiver.FillTakesNextBytes | recv.go:771-820 | A read returns the next min(room, available) unread bytes, in order, and leaves exactly the rest. |
| Receiver.ReadsThrough | recv.go:786-816 | A read completes exactly the packets whose bytes fit, those with none included as long as room is left. |
| Reading.ReadAcknowledged | recv.go:771-820 | In every run a read is acknowledged, with one EventDataAck, if and only if the unread bytes of the first ready packet fit into the buffer; its number is that of the last packet read to the end, and the application gets min(len, unread) bytes. |
| Reading.ConsumeAcknowledged | recv.go:335-352 | In every run a delivery consumes everything ready and is acknowledged once, with the number of the last packet. |
| Reading.ReadsAll | recv.go:771-820 | With a buffer of at least one byte, repeated reads hand out everything that was ready, in order, and nothing else. |
| Reading.BusyReads | recv.go:811-819 | Whatever is left to be consumed can be brought across, taken with one Read, and acknowledged so that the link is quiet. |
| RecvLoop.DrainStep | recv.go:529-545 | One turn of the drain loop keeps the ring well formed, keeps the final result, and leaves fewer slots. |
| RecvLoop.RingTake | recv.go:540-544 | Emptying the slot of the lowest number moves the window up by one. |
| RecvLoop.RecvState.ReceiveData | recv.go:491-556 | On the ring, a data packet has the effect the map specification says, and the slot of NextFrameExpected is empty afterwards; it panics exactly for a negative number that is no multiple of the window. |
| RecvLoop.RecvState.Drain | recv.go:529-545 | The loop terminates with the maximal run delivered. |
| RecvLoop.RecvState.DeliverToConsumer | recv.go:335-352 | All ledgers after a delivery, and the acknowledgement sent. |
| RecvLoop.RecvState.FillAsMuchAsPossible | recv.go:771-820 | The bytes in the caller's buffer, the packets left with their offsets, the ledgers, and one acknowledgement if a packet was completed. |
| RecvLoop.RecvState.NoteArrival | recv.go:431-443 | The ledger update, and exactly when it panics. |
| RecvLoop.RecvState.constructor | recv.go:126-158 | The initial values, 0 for LastFrameClientConsumed among them. |
| SendLoop.SenderState.DoOrigDataSend | sender.go:445-509 | Numbers the frame and writes it into its slot, whatever was there; if that slot had left the indices, both stay sorted over the same slots. |
| SendLoop.SenderState.GotPack | sender.go:332-380 | Both indices lose exactly the frames through AckNum, each is credited, and the check of their sizes never fails. |
| SendLoop.SenderState.RetrySweep | sender.go:261-321 | Exactly the due slots get new deadlines and are sent again with their old contents; nothing else changes. |
| SendLoop.SweepExactly | sender.go:261-321 | A sweep gives exactly the indexed slots whose deadline has passed a new one, leaves all contents, and sends each of them once, in order of deadline and number. |
| SendLoop.SenderState.ComputeInflight | sender.go:186-193 | Walking the deadline index counts the frames and bytes above acked. |
| SendLoop.SendKeeps | sender.go:484-488 | The new slot differs from all indexed ones, and the indices stay the contiguous frames up to the last one sent. |
| SendLoop.SumPositions | sender.go:186-193 | The bytes in the indexed slots are those of the unacknowledged frames. |
| RetryTree.CompareIsLexicographic | retree.go:44-55 | Deadlines are compared first and numbers break ties, so that no two frames compare equal. |
| RetryTree.InsertSorts | retree.go:23-25 | Insertion keeps the order and adds exactly the slot. |
| RetryTree.RemoveSorts | retree.go:27-29 | Removal keeps the order and removes exactly the slot. |
| RetryTree.SortedUnique | retree.go:44-55 | Either comparison leaves only one order for a set of slots. |
| RetryTree.DueIsAll | retree.go:57-74 | Stopping at the first later deadline misses no due slot. |
| RetryTree.Retree.DeleteThroughDeadline | retree.go:57-74 | Removes exactly the due front, from the other index as well. |
| RetryTree.Retree.DeleteThroughSeqNum | retree.go:76-93 | Removes exactly the slots through seqnum, from the other index as well. |
| Slots.SlotDistinct | sender.go:453-454 | Frames of one window never share a slot. |
| SwpLoop.SWP.PacketArrived | recv.go:360-556 | Locking on, filtering, ledgers, GotPack, data or info, and the acknowledgements sent are exactly one Arrive step; it panics exactly when that step does, the check of the index sizes included; packets of other remotes change nothing. |
| SwpLoop.SWP.AcceptSend | sender.go:232-240 | A message is taken exactly when the last capacities exceed the slots in the deadline index and their bytes; then it is one Push step, or an Overrun after which the oldest unacknowledged frame is in no slot. |
| SwpLoop.SWP.RetryDue | sender.go:261-321 | The sweep is one Retry step for exactly the frames whose deadline has passed. |
| SwpLoop.SWP.DeliverReady | recv.go:335-352 | One Consume step. |
| SwpLoop.SWP.ReadRequest | recv.go:324-333 | One Read step; the application gets the bytes in the buffer. |
| SwpLoop.SWP.DoKeepAlive | sender.go:513-560 | One KeepAlive step, sent exactly when it is allowed and nothing was sent for an interval. |
| SwpLoop.SWP.DoSendClosing | sender.go:562-596 | One Close step, without change of local state. |
| SwpLoop.SWP.ConnectRequest | recv.go:248-308 | One Dial step, or an error when the session is locked onto another remote. |
| ConnectionLoop.Connection.Connect | recv.go:248-308 | The same, with the error for a state that is too late to connect. |
| SwpLoop.SWP.RetryTimerFired | retry.go:30-75 | More than a second after the last attempt one RetryTimer step, panics included; before, nothing is sent and the retry record stays, unless it belongs to another state. |
| SwpLoop.SWP.SendAcks | sender.go:406-420 | The sender learns the remote nonce from the first acknowledgement that has one. |
| SwpLoop.SweepFrames | sender.go:280-287 | The packets of a sweep are those of the indexed frames whose deadline has passed, no others. |
| ConnectionLoop.Connection.UpdateTcp | tcp.go:86-175 | New state and action in every case. |
| ConnectionLoop.Connection.DoTcpAction | recv.go:702-769 | Packets, nonces and next event of every action, and exactly when it panics. |
| ConnectionLoop.Connection.HandleInfo | recv.go:455-488 | The doNextEvent loop terminates with the result of the recursive specification. |
| ConnectionLoop.Connection.RetryCheck | retry.go:30-75 | Wait, resend, cancel, or give up after ten attempts. |
| ConnectionLoop.Connection.SetupRetry | retry.go:78-108 | The retry record after every change of state. |
| FlowControl.FlowCtrl.UpdateFlow | flow.go:87-107 | A negative capacity changes nothing. |
| Sessions.Session.Write | swp.go:579-624 | Hands over exactly the chunks of the payload, in order, on a new account, with only the last one marked. |
| Sessions.ChunksJoin | swp.go:593-617 | The chunks concatenate to the payload. |
| Sessions.ChunkCount | swp.go:602-605 | npack is exactly the number of chunks. |
| Sessions.WroteMore | swp.go:579-624 | A Write after others leaves the chunks of all payloads, in order, with the sender. |
| Sessions.Normalised | swp.go:342-349 | Refuses a window below 1; otherwise a byte window below the message window becomes 10240 times that, so a chunk is never empty. |
| Fifo.OverflowMeansTooMany | overing.go:33-64 | After events in order of time, overflow is reported exactly when at least N of all events lie within Window of the newest. |
| Fifo.HoldsLastEvents | overing.go:38-49 | The ring always holds the last min(k, N) events in order. |
| Fifo.FirstInFirstOut | overing.go:38-221 | For every mix of writes, added events, reads with and without advancing, advances, adoptions and resets, what came out and what is left is what was there and what was put in. |
| Fifo.ReadsOldest | overing.go:103-133 | After any such mix a read, advancing or not, returns the oldest items not yet taken out. |
| EventRing.Watch | overing_test.go:12-36 | A fresh ring fed a whole series reports each event exactly when too many came within the window. |
| EventRing.EventRingBuf.AddEventCheckOverflow | overing.go:38-64 | On the array: the queue after the event, and the report. |
| EventRing.EventRingBuf.WritePtrs | overing.go:142-174 | Terminates, writes min(len(p), free) and reports an error exactly when short. |
| EventRing.EventRingBuf.ReadAndMaybeAdvance | overing.go:113-133 | The front of the queue, across the wrap, the rest of p untouched, end of file exactly on an empty ring. |
| EventRing.EventRingBuf.Advance | overing.go:188-197 | Forgets the n oldest, or all. |
| EventRing.EventRingBuf.Adopt | overing.go:208-221 | Takes over a larger slice, copies a smaller one. |
| EventRing.EventRingBuf.TwoContig | overing.go:84-95 | The two slices together are the queue. |
| Variance.ExactStep | stddev.go:89-102 | One update, of whatever weight leaves a total other than 0, keeps W = sum w, W A = sum w x and Q = sum w (x - A)^2. |
| Variance.SumSqFromMean | stddev.go:99-101 | The sum of squares around any point, from the one around the weighted mean. |
| Variance.RadicandIs | stddev.go:70-78 | The number under the root is Q / (W - 1), and with positive weights not negative when W > 1. |
| Stats.SdTracker.AddObs | stddev.go:80-103 | All columns stay exact for all rows seen; a row of the wrong length panics. |
| Stats.SdTracker.Sd | stddev.go:70-78 | The sample variance of every column. |
| Stats.MixBetween | rtt.go:54 | The moving average never leaves the range of the samples. |
| Stats.RTT.AddSample | rtt.go:46-55 | Estimate and statistics stay exact and in range. |
| Stats.RTT.GetSd | rtt.go:33-42 | The three cases; from two samples on the root is of a defined, nonnegative number. |
| Stats.RTT.GetEstimate | rtt.go:27-29 | The truncated estimate is between the least and the greatest sample. |

## Left out

- Theorems.NoLoss: says nothing of frame 0, which the code may lose; Deadlock.NeverWedged has the exact condition.
- SendLoop.SenderState.DoOrigDataSend: says nothing of the indices after a push into a slot that is still indexed, except for a ring of one slot: that depends on the shape of the trees of the imported package. Runs end there; SlotsFreeExactly says when none does.
- Handshake.HandshakeAgreement: covers runs in which one end dials. When both do, Scenarios.BothDialPanics applies.
- Handshake.HandshakeAgreement: a step of the model ends with the SendAck arm for what it queued; a push between the two arms, which goes out without DestSessNonce, is a push before the step.
- Sessions.Session.Write: stops before the wait for the last acknowledgement and its ten second timeout; ConnectIfNeeded is the Dial step. Its precondition that WindowByteSz is not 0 holds in every session that NewSession made.
- SwpLoop.SWP.ReadRequest: asks that no ready packet is read beyond its end, which the runs keep.
- Stats.SdTracker.AddObs: numbers are exact reals, so a total weight of 0 is excluded, where floats give NaN.
- Stats.SdTracker.Sd: the square root is not taken.
- Stats.RTT.GetSd: nor is it here.
- SwpLoop.SWP.PacketArrived: the inbox a packet comes from is not empty.
- Goroutines, channels, mutexes and halting: each arm of a loop is one atomic step. SendAck's queue of five is part of the network, which may lose what is in it.
- Time: retry deadlines and `GetDeadlineDur` are arbitrary, every timer may fire at any moment, and closing a session after missed keepalives is a stop of its steps.
- AppCloseCallback is there from the start or never; what the application does when it is called is not part of this model.
- Telemetry in packets: round-trip estimates, SeqRetry, AckRetry, send and arrival times, and the checks on them in UpdateFlow.
- Blake2b checksums: a corrupted packet is a lost one. Nonces are given, distinct from the empty string.
- Inbox names in the World: between two fixed ends they only matter for whether a remote is known.
- FlowControl.FlowCtrl.UpdateFlow: without the remote round-trip estimates that it also stores.
- Delivery over ReadMessagesCh hands out whole packets. Of a packet that was partly read before, the model counts the bytes from DataOffset on: it takes the consumer to honour DataOffset (recv.go:335-352).
- DataOffset is a field of the ready packet; that RecvHistory and RcvdButNotConsumed share the same packet object is not modelled.
- The red-black tree of the imported package is a sorted sequence without duplicates; its balancing is not part of this model.
- The generated codec does not carry FromTcpState; packets are values that do, as the simulated network passes them.
- LastAckRec and the sender's DiscardCount, which decide nothing.
- Wrap-around of 64-bit numbers.
- asap.go, clock.go, the simulated and NATS networks, file transfer and TLS: input and output, or thin helpers.
