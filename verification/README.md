# ENet, verified

The repository vendors ENet 1.3.13, a protocol library that carries reliable, unreliable and
unsequenced packets over UDP, under a thin Godot wrapper. This project models the parts of it
whose correctness is hard to see by reading, and proves what they promise.

- **The range coder** (`enet/compress.cpp`). `Contexts` and `Ppm` say what an adaptive order-2
  model is, with contexts named by the bytes they follow; `Carryless` is the 32-bit arithmetic
  below it, `Compression` the format and its inverse. `SymbolTrees`, `ContextWalks`, `Rescaling`
  and `Storage` prove the arena of search trees against the model; the class in `SymbolArenas` and
  the methods of `RangeCoding`, `ChainSteps`, `Compressing` and `Decompressing` are the code's
  loops over that arena. `Learning` compares the arenas of the two sides.
- **Reliable channels** (`enet/peer.cpp`, `enet/protocol.cpp`). `Windows` is the 16-bit arithmetic,
  `Fragmentation` and `Reassembly` cut packets and put them together, `WireSizes` and `FragmentFit`
  say what fits a datagram, `Sending` and `Receiving` are the two halves of a peer as classes, and
  `InFlight`, `SenderInvariant`, `Reception` and `Parcels` their invariants. `ReliableDelivery` is the
  two peers, with packets whole and in fragments, over a network that loses, repeats, delays and
  reorders; `LateCommands` and `GivingUp` say when such a run gives the other side up.
  `FragmentDelivery` and `WideFragments` follow one packet of any width, `EightWindows` is a run that
  comes to a standstill.
- **Unreliable and unsequenced packets**: `Unreliable`, `UnreliableDelivery`, `UnreliableQueues`,
  `Unsequenced`.
- **Sending**: `RoundTrips` averages round trip times and adjusts the throttle, `SendPasses` fills
  one datagram, `SendTurns` is a peer's turn and `SendLoop` the loop over a host's peers. `SendLedger`
  and `TurnLedger` account for everything that leaves a queue, `HeldBack` for everything that stays.
- **Peers**: `PeerStates`, `PeerInvariants` and `PeerRuns` are the ten states with their counters,
  dispatch queue and events, `EventRuns` and `PeerStories` what the application is told in whole runs;
  `Handshake`, `HandshakeRuns`, `HandshakeTerms` and `HandshakeStories` are the handshake among any
  number of hosts; `PeerMoves` ties the two together.
- **Bandwidth** (`enet/host.cpp`): `Bandwidth` and `OutgoingShares`, with `ThrottleClock` for when.
- **Smaller pieces**: `Crc` (`enet/packet.cpp`), `RingQueue` (`gdnet_queue.h`).

Where the C code changes fields, arrays or lists in place, a class or a method does so here, and its
contract equates the new state with a function of the old one; what the code promises is proved
about that function, over every input or every run.

## Model

| member | source | states |
|---|---|---|
| Compression.RoundTrip | enet/compress.cpp:246-627 | for every nonempty input, decompressing its compressed form gives it back and stops exactly there when the limit is at least its length, and fails for any smaller limit |
| Compression.ChosenInverts | enet/compress.cpp:529-596 | from the intervals coded for a byte, the decoder escapes as often as the encoder did, finds the byte in the same context, and is left in step with the encoder |
| Compression.QuietEnds | enet/compress.cpp:139-146 | without an end marker: once the decoder's code equals its low bound and the input is used up, it escapes down to the root and stops |
| Compression.CompressedNonEmpty | enet/compress.cpp:513-514 | a nonempty input has a nonempty compressed form, so that the decompressor's own test for no input never hides data |
| Compression.BeyondTotal | enet/compress.cpp:352-352 | not every stream is a compressor's output: four bytes of ones read a code beyond the root's total |
| Compressing.Compress | enet/compress.cpp:246-342 | over the arena: writes the compressed form of the joined buffers and returns its length, or returns 0 exactly when it does not fit (or there is no buffer, or the input limit is 0); bytes past the output limit stay untouched |
| Compressing.EncodeByte | enet/compress.cpp:286-329 | one byte, from the longest context down: the bytes of exactly the intervals the model codes are written, and the arena has visited exactly the chain down to where the byte is known |
| Compressing.NextInput | enet/compress.cpp:331-336 | afterwards the arena stores the model after that byte, `predicted` is the slot of the next context and `order` its length; a nearly full arena starts over |
| Compressing.ByteLearned | enet/compress.cpp:148-157 | when the visited chain has learned a byte, the arena holds the next model, or is so full that the next model is a fresh one |
| Decompressing.Decompress | enet/compress.cpp:498-627 | over the arena: for every input and limit, writes what the format decodes and returns its length, or 0; `beyond` tells exactly the streams with a code beyond the root's total |
| Decompressing.DecodeNext | enet/compress.cpp:520-624 | decoding is: end, fail, or one symbol and then decoding on from the advanced model, which is valid again |
| Learning.InStep | enet/compress.cpp:599-615 | two arenas that store the same model, in whatever order their symbols were created, are equal up to renaming of slots: same number of symbols, and each context's escapes, total, value, count and parent correspond |
| Chains.StillRoom | enet/compress.cpp:148-157 | the arena never overflows: before a context of the chain is visited there is a free slot |
| Ppm.AdvanceValid | enet/compress.cpp:331-336 | a coding step keeps the model valid, never holds more than 4096 contexts, and starts over before the next step could |
| Contexts.AdaptedValid | enet/compress.cpp:301-315 | coding a value keeps counts in a byte and the total under the coder's bottom, through the halving, and a context can escape exactly when it has counted something |
| Contexts.LocateInverts | enet/compress.cpp:373-413 | every code inside the share of a value is looked up as that value and no other |
| ContextWalks.CodeAgainst | enet/compress.cpp:386-411 | comparing a code with a node's two bounds tells on which side the value it stands for lies, in 16 bits |
| ContextWalks.RootAlone | enet/compress.cpp:420-425 | in an empty root a code is its own value, with a share of one code |
| SymbolTrees.HitHolds | enet/compress.cpp:189-195 | a walk that meets its value and raises its count leaves the tree of the counts with that one raised, every `under` being the node's count plus its left subtree's |
| SymbolTrees.GrownHolds | enet/compress.cpp:173-187 | a walk that ends in a gap and creates a node leaves the tree of the counts with the new value added |
| Rescaling.HalvedHolds | enet/compress.cpp:90-105 | when every node has been halved, the arena holds the tree of the halved counts, with all sums right |
| SymbolArenas.RangeCoder.RescaleSymbols | enet/compress.cpp:90-105 | the loop over right children with its recursion on left ones halves each node of the subtree once and returns the sum of the halved counts |
| SymbolArenas.RangeCoder.ContextRescale | enet/compress.cpp:107-112 | afterwards counts, escapes and total are those of the rescaled context |
| SymbolArenas.RangeCoder.ContextEncode | enet/compress.cpp:159-199 | reports the share the value had before (the sum of the counts below it, and its own) and leaves the tree with its count raised, creating a node just when it is new |
| SymbolArenas.RangeCoder.ContextTryDecode | enet/compress.cpp:373-416 | finds a value just when the code lies below the sum of the counts, then the one whose share contains it, and counts it |
| SymbolArenas.RangeCoder.ContextRootDecode | enet/compress.cpp:418-438 | in the root every code below the total names one of 256 values, seen or not; that value's share is reported and it is counted |
| Storage.TableStep | enet/compress.cpp:293-314 | an arena that stores a model, after a value was counted in one context, the waiting parent written and the statistics updated, stores the model in which that context has seen the value, and only the new symbol waits for its parent |
| Carryless.TruncatedNested | enet/compress.cpp:128-132 | cutting the range at the next multiple of 2^24 leaves it positive and inside the old one |
| Carryless.ShiftExact | enet/compress.cpp:133-136 | a shift drops exactly the leading byte, and low + range stays within 2^32 |
| Carryless.ShiftProgress | enet/compress.cpp:126-136 | the unbounded normalising loop ends |
| Carryless.CodedAdmitted | enet/compress.cpp:121-137 | whatever is coded later stays inside the interval coded now |
| Carryless.DecodeStep | enet/compress.cpp:352-371 | the decoder reads a code inside the interval that was coded, and taking it leaves the decoder in step with the encoder |
| RangeCoding.RangeEncode | enet/compress.cpp:121-137 | the macro in 32-bit words writes the interval's bytes and ends with its registers, and fails exactly when they do not fit |
| RangeCoding.Flush | enet/compress.cpp:139-146 | writes what is left of `low` up to its last nonzero byte, and fails exactly when that does not fit |
| RangeCoding.Seed | enet/compress.cpp:344-350 | the decoder opens with up to four bytes, missing ones being zero |
| RangeCoding.RangeRead | enet/compress.cpp:352-352 | reads the code and leaves the unit of range |
| RangeCoding.RangeDecode | enet/compress.cpp:354-371 | takes one interval off the decoder's registers and input |
| ReliableDelivery.ReliablyDelivered | enet/peer.cpp:784-1002 | in every state of every run: the commands of a channel carry its packets, whole or in fragments, one after the other; the packets dispatched are the first of those sent, each once and as it was sent; every command is one of theirs, or queued at the receiver (a fragment by its bit), or still held by the sender; and the next packet waits only for commands that have not come |
| ReliableDelivery.NeverConfused | enet/peer.cpp:592-599 | of every message that may arrive in any run, the 16-bit tests for taking, refusing and recognising decide what whole numbers would: taken when it, or the first fragment of its packet, is 0 to 6 windows ahead, refused an acknowledgement when it is 7 ahead or 8 behind |
| ReliableDelivery.InFlightAccounted | enet/protocol.cpp:1466-1588 | in every state of every run: the data in transit is the sum over the sent commands and at most 65536, each window's counter is the number of its commands sent and not acknowledged and at most 4096, its bit says whether that is 0, and retried commands are first in the queue |
| ReliableDelivery.GatingHolds | enet/protocol.cpp:1488-1501 | the last command put on the wire is at most 7 windows past the receiver's own, because of what beginning a window asks for |
| ReliableDelivery.CursorSteps | enet/peer.cpp:789-803 | no step of any run takes a receiver back, or forward by more than 7 windows |
| ReliableDelivery.RunOk | enet/protocol.cpp:188-272 | the invariant of sender, network and receiver holds in every state of every run, which may send packets whole or in fragments, transmit, time out, retune, lose, repeat, reorder, refuse and acknowledge, also the peer's own commands |
| ReliableDelivery.EightBehind | enet/peer.cpp:598-599 | a command, whole or a fragment, that is open and 8 windows behind the receiver is never acknowledged again, and the next window cannot be begun |
| EightWindows.Standstill | enet/protocol.cpp:1488-1494 | a run that gets there: command 1 is open and on the wire and would be refused whenever it arrives, and the only other command, number 9 * 4096, is blocked |
| Windows.TestsExact | enet/peer.cpp:592-599 | from 8 windows behind to 7 ahead, the tests for taking and for refusing an acknowledgement, and equality, are exact |
| Windows.LateExact | enet/peer.cpp:840-848 | a number the receiver has passed, by up to 15 windows, is taken for a new one if and only if it is 10 windows old or older |
| Windows.StaleAccepted | enet/peer.cpp:847-848 | the bound on age is needed: any command ten windows old is taken for a new one |
| Windows.MaskBits | enet/protocol.cpp:1492-1493 | the mask of eight windows, as its two shifts make it, has exactly the bits of the window and the seven after it, around the end of the word |
| Windows.SeqUnique | enet/protocol.cpp:202-204 | among nine consecutive windows a sequence number stands for one command only |
| Sending.Peer.SetupOutgoingCommand | enet/peer.cpp:623-638 | queues a reliable command under the next number of its channel, or of the peer for channel 255 |
| Sending.OwnFollow | enet/peer.cpp:623-628 | the peer's own commands are queued in their order under numbers that count up by one, around the end of 16 bits |
| UnreliableQueues.Peer.SetupOutgoingCommand | enet/peer.cpp:639-654 | queues any other command: an unsequenced one counts up the group and has the numbers 0 and 0, the first fragment of another takes the next unreliable number and its other fragments keep it |
| UnreliableQueues.GroupsFollow | enet/peer.cpp:639-646 | unsequenced packets take one group after the other, around the end of 16 bits, and no other number |
| Sending.Peer.SendReliableOutgoingCommands | enet/protocol.cpp:1466-1588 | the walk over the queue, with its three ways to hold a command back, loads into the datagram and puts on the wire exactly what the pass function says, and reports whether a ping may follow |
| Sending.Peer.CheckTimeouts | enet/protocol.cpp:1413-1464 | the loop does what the function says that `LateCommands.CheckedExactly` and `GivingUp` are about |
| LateCommands.CheckedExactly | enet/protocol.cpp:1422-1461 | late commands are looked at in order; the peer is given up if and only if at one of them the silence since the earliest time so far has reached the maximum, or the minimum with that command's timeout at its limit; otherwise they go back in front of the queue in their order with twice the timeout, and the others stay |
| GivingUp.RunTimed | enet/protocol.cpp:1544-1552 | in every run: a command's timeout is the one of its first attempt, from the averages of that time, doubled once for each attempt after it, its limit is `timeoutLimit` times the first, and the next check is due when the first command on the wire is late |
| GivingUp.NotTooSoon | enet/protocol.cpp:1435-1438 | in every run no peer is given up before the minimum has passed since a command was sent whose acknowledgement was found late with nothing heard since (or the maximum, if that is set lower) |
| GivingUp.BeforeMaximum | enet/protocol.cpp:1435-1438 | before the maximum has passed since any of them, it is given up only if a late command was attempted k times with 2 to the power k - 1 at least `timeoutLimit`, unless 32 bits were passed |
| GivingUp.AtMaximum | enet/protocol.cpp:1435-1438 | a check that meets a late command at or after the maximum does give it up |
| GivingUp.AtLimit | enet/protocol.cpp:1435-1438 | and so does one that meets, at or after the minimum since it was sent, a command that was attempted that often |
| Sending.Peer.RemoveSentReliableCommand | enet/protocol.cpp:188-272 | takes off the first command an acknowledgement answers, sent or queued for a retry, with its window, its data in transit and the next timeout |
| Sending.LoadedFits | enet/protocol.cpp:1522-1532 | what passes the test for space keeps the datagram within the MTU, 32 commands and 65 buffers |
| InFlight.GateOpen | enet/protocol.cpp:1488-1494 | a window begins only after an acknowledgement from the one before, and when nothing is open more than 8 windows back |
| InFlight.GateFree | enet/protocol.cpp:1488-1494 | and it does begin when the last command sent is acknowledged and nothing is open more than 8 windows back |
| InFlight.FirstSent | enet/protocol.cpp:1536-1540 | a command sent for the first time keeps the counters equal to what is open |
| InFlight.CounterBounded | enet/protocol.cpp:1539-1539 | no window counter exceeds 4096 |
| SenderInvariant.PassedOk | enet/protocol.cpp:1480-1582 | a pass over the queue keeps the sender's invariant, sends only what is due, and keeps the datagram within its limits |
| SenderInvariant.TimedOutOk | enet/protocol.cpp:1422-1461 | checking timeouts keeps the invariant |
| SenderInvariant.AcknowledgedOk | enet/protocol.cpp:188-272 | an acknowledgement that is not long out of date takes exactly its own command off, if it is still there |
| SenderInvariant.OwnAcknowledgedOk | enet/protocol.cpp:231-241 | an acknowledgement of one of the peer's own commands, whatever its number, leaves the channels as they are |
| SenderInvariant.OnlyThatOne | enet/protocol.cpp:196-226 | what an acknowledgement finds by 16 bits is the command it was meant for |
| Receiving.Peer.QueueIncomingCommand | enet/peer.cpp:823-1002 | a reliable packet, or one of which a first fragment has come, is dropped, refused for want of space, or stored in its place, and everything now ready is dispatched; not storing a packet in fragments is an error |
| Receiving.Peer.HandleSendFragment | enet/protocol.cpp:539-620 | a fragment is ignored by its packet's first number, rejected when it is malformed, belongs to another packet or finds no space, or joins its packet in the queue, beginning it when need be; a complete packet is dispatched with what follows it |
| Receiving.Peer.DispatchIncomingReliableCommands | enet/peer.cpp:784-821 | moves on exactly the run of complete packets that follow the channel's last command, the cursor passing all fragments of each |
| Receiving.Peer.QueueAcknowledgement | enet/peer.cpp:584-614 | queues an acknowledgement unless the command lies in the two windows that are refused one |
| Reception.PlaceFits | enet/peer.cpp:858-880 | the back-to-front walk finds a duplicate, or the place that keeps the queue in order of distance from the cursor |
| Reception.ArrivalRefines | enet/peer.cpp:838-881 | the 16-bit receiver stores exactly the packets that a receiver with whole numbers and a set would: those that are new and near |
| Reception.FragmentRefines | enet/protocol.cpp:543-601 | it takes a fragment in exactly when that one would: its packet begins ahead of the receiver, near, and either is held with the same size and count or is new and finds space |
| Reception.DispatchRefines | enet/peer.cpp:789-810 | dispatching releases exactly the longest run of complete packets after the cursor |
| Parcels.DeliversPackets | enet/peer.cpp:784-821 | what is dispatched is the next stretch of the packets that were sent, each as it was sent; nothing held is lost, and nothing that could be dispatched is left |
| Parcels.LogMore | enet/peer.cpp:181-186 | queueing all commands of one more packet keeps every number of the channel with its packet and its place in it |
| Fragmentation.Split | enet/peer.cpp:111-189 | a packet goes whole, is refused for too many fragments, or becomes exactly its fragments; by `FragmentFit` these are the longest that fit a datagram |
| FragmentFit.FragmentsFit | enet/peer.cpp:111-113 | every fragment fits a datagram of the MTU alone, with the datagram header, the checksum if there is one and a command of the size of its record; with one byte more, all but the last would not |
| FragmentFit.WholeFits | enet/peer.cpp:111-115 | a packet goes whole if and only if it would fit even as a fragment; it then fits as any command that carries a packet |
| FragmentFit.TooManyExactly | enet/peer.cpp:117-126 | it is refused if and only if it is longer than 1048576 times the MTU less 28 bytes, or 32 with a checksum |
| FragmentFit.CommandsFit | enet/protocol.cpp:1523-1527 | so every command that is queued for a packet, whole or a fragment, fits an empty datagram, with the checksum |
| Fragmentation.Partitioned | enet/peer.cpp:142-177 | the fragments joined are the packet; none is empty, and all but the last have full length |
| Reassembly.IncomingCommand.HandleFragment | enet/protocol.cpp:555-618 | rejects malformed and foreign fragments unchanged; otherwise the fragment's bit, bytes and count are entered once, and completion is reported once |
| Reassembly.AddedOk | enet/protocol.cpp:603-614 | a fragment, new or repeated, keeps the count of missing fragments equal to the number of clear bits and the taken parts equal to the packet's |
| Reassembly.CompleteIs | enet/protocol.cpp:616-617 | when none is missing, the bytes are the packet |
| Reassembly.FragmentsWellFormed | enet/protocol.cpp:555-560 | what the sender makes of a packet the receiver allows is never malformed |
| FragmentDelivery.RebuiltOnce | enet/protocol.cpp:514-621 | in every run, for every packet: it is released as it was sent, at most once, and as soon as all its fragments were taken and everything before it was released; the missing fragments are counted throughout; a second assembly is never completed, and never begun of a packet within two windows |
| FragmentDelivery.HandledIs | enet/protocol.cpp:539-620 | what is said of the one packet there is what the receiver's own functions say of a queue that holds it |
| WideFragments.SecondExactly | enet/protocol.cpp:543-548 | a packet that can be released at all lies within two windows if and only if in no run a second assembly of it is begun |
| WideFragments.SecondBegins | enet/protocol.cpp:592-601 | for every wider packet, the run: it is released, ten windows of commands follow and are acknowledged, its last fragment comes once more and begins an assembly of which all others are missing |
| WideFragments.StandsInTheWay | enet/peer.cpp:864-878 | what an incomplete packet does to the channel: the real command of its number is dropped as a duplicate although it is acknowledged, and the receiver never gets past it |
| FragmentDelivery.LateIgnored | enet/protocol.cpp:543-548 | of the packets that can be released at all, those within two windows are exactly those none of whose late fragments is ever taken for a new packet's |
| FragmentDelivery.NeverReleased | enet/protocol.cpp:1488-1501 | in no run is a packet released that reaches more than 7 windows past the command before it: the sender's gate and the refused acknowledgements wait for each other |
| FragmentDelivery.WideReopens | enet/protocol.cpp:547-548 | for every packet in between, the cursor at which its last fragment, sent again, is taken for a new packet's |
| FragmentDelivery.RightBehind | enet/protocol.cpp:543-548 | with the cursor right behind the packet, its fragments are ignored if and only if the last one's window is at most nine beyond the first one's |
| FragmentDelivery.SecondAssembly | enet/protocol.cpp:592-601 | such a fragment begins a second assembly, of which all others are missing, in the place of a command 65536 numbers on |
| Unreliable.Channel.DispatchIncomingUnreliableCommands | enet/peer.cpp:701-782 | the walk with its three iterators dispatches the ready packets before the first that must wait, and keeps what lies behind them |
| Unreliable.Channel.QueueIncomingCommand | enet/peer.cpp:838-1001 | late and repeated packets are discarded, with an error when they have fragments; a stored one goes to its place and what is ready is dispatched |
| UnreliableDelivery.Outgoing.Send | enet/peer.cpp:100-214 | which of the four ways a packet goes, and its numbers; an unreliable number never wraps within one reliable number |
| UnreliableDelivery.SentAs | enet/peer.cpp:115-213 | a packet is refused if and only if it needs more than 1048576 fragments; one that asks to be reliable is, and so is one whose fragments may not be lost singly; of the others, all but unsequenced ones in one piece are once 65535 unreliable numbers are given out, and never before |
| UnreliableDelivery.InOrderOnce | enet/peer.cpp:701-782 | in every run in which the sender's lead stays under 65536 commands, sequenced packets are dispatched in the order of sending, each at most once, and no unsequenced packet is left on the list |
| UnreliableDelivery.LeadExact | enet/peer.cpp:838-848 | a number is judged rightly however far the receiver has come by the time it arrives, if and only if it was given out less than 65536 ahead of the receiver |
| UnreliableDelivery.Overtaken | enet/protocol.cpp:1312-1411 | without that condition, a run in which the packet sent second is dispatched first |
| UnreliableDelivery.SlotFits | enet/peer.cpp:891-922 | the back-to-front walk finds a duplicate, or the place that keeps the list in the sender's order |
| UnreliableDelivery.FreshAtOnce | enet/peer.cpp:715-721 | a whole packet of the current reliable number, newer than the last dispatched, is dispatched on arrival |
| UnreliableDelivery.UnsequencedAtOnce | enet/peer.cpp:712-713 | an unsequenced packet that finds space is dispatched on arrival |
| Unreliable.AtMostTwo | enet/peer.cpp:731-742 | of the packets in front of the first that must wait, at most two survive a dispatch |
| Unreliable.IncompleteLost | enet/peer.cpp:736-738 | of incomplete packets of the receiver's own reliable number, exactly the last two survive |
| UnreliableQueues.ThrottledTogether | enet/protocol.cpp:1347-1371 | when the throttle stops an unsequenced packet, all unsequenced packets queued right behind it are dropped with it |
| UnreliableQueues.ThrottledAlone | enet/protocol.cpp:1347-1371 | a sequenced packet of one piece is dropped alone |
| Unsequenced.Peer.HandleSendUnsequenced | enet/protocol.cpp:463-489 | the handler with its bitmap and moving base: ignored, failed (with the window already moved), or delivered and marked |
| Unsequenced.AtMostOnce | enet/protocol.cpp:446-490 | over any sequence of arrivals none of which is more than 32 windows late, across any number of wraparounds, each group is delivered at most once |
| Unsequenced.ArrivalExact | enet/protocol.cpp:466-482 | less than 32 windows ahead, a group is delivered if and only if it was not before and belongs to no earlier window |
| Unsequenced.LateTwice | enet/protocol.cpp:466-482 | a group of an earlier window, at most 63 windows late, is delivered if and only if it is more than 32 windows late; one that is 65 to 96 windows late is ignored |
| Unsequenced.LateExactly | enet/protocol.cpp:463-482 | however late a group is: it is delivered if and only if its lag modulo 64 windows is at least 33, or is 0 and its bit is clear |
| RoundTrips.Clock.Measure | enet/protocol.cpp:837-879 | the time a command was sent is rebuilt from 16 bits, and a time still to come changes nothing; else the receive time and the earliest timeout are set, the throttle adjusted, and the averages, their extremes and those of the epoch follow |
| RoundTrips.Clock.AdjustThrottle | enet/peer.cpp:61-90 | the throttle opens, closes, or stays, by the round trip against the last epoch's |
| RoundTrips.ThrottleBounded | enet/peer.cpp:61-90 | the throttle never passes its limit, whatever its settings |
| RoundTrips.ShortOpens | enet/peer.cpp:68-77 | a round trip shorter than the shortest of the last epoch never lowers the throttle, and raises it while it is below its limit |
| RoundTrips.LongCloses | enet/peer.cpp:78-87 | one longer by more than twice the variance never raises it, and lowers it while it is above 0 |
| RoundTrips.OthersLeave | enet/peer.cpp:64-90 | any other leaves it alone, and it is at its limit while the variance is as large as the round trip |
| RoundTrips.OpensFully | enet/peer.cpp:69-77 | n short round trips raise it by n times the acceleration, up to its limit |
| RoundTrips.ClosesFully | enet/peer.cpp:79-87 | n long ones lower it by n times the deceleration, down to 0 |
| RoundTrips.EpochEnds | enet/protocol.cpp:865-879 | over any measurements of one epoch: what the throttle goes by in the next is the lowest average and the highest variance there were in it, the measurement that ends it included |
| RoundTrips.SampleMoves | enet/protocol.cpp:850-863 | a measurement takes the average an eighth of the way to the sample, and the variance a quarter of the way to the sample's distance from the average that results |
| RoundTrips.WithinADay | enet/include/enet/time.h:8-15 | times less than a day apart are told apart either way around; from a day on the later is taken for the earlier |
| RoundTrips.SentTimeExact | enet/protocol.cpp:837-840 | 16 bits are enough for a command sent less than 2^15 milliseconds ago, across wraparound of the clock |
| RoundTrips.StaysSteady | enet/protocol.cpp:850-863 | no measurement takes a round trip time of at least 7 below 7, or lets the averages leave the range in which a timeout does not wrap |
| RoundTrips.TimeoutPositive | enet/protocol.cpp:1544-1548 | so a command's timeout is at least 7: it cannot time out in the pass that sends it |
| SendLoop.Host.SendOutgoingCommands | enet/protocol.cpp:1590-1737 | the loop ends; every datagram sent is within its peer's MTU, 32 commands and 65 buffers; for each peer, the datagrams sent to it are accounted for by its turns, as `TurnLedger.TurnAccounted` says of one, up to the turn that gave it up if there was one; and unless a peer's loss is reported at once, no peer that takes turns has anything left that is not held back by its windows or by the data in transit, but for the one command of a peer that has just begun to disconnect, which the code leaves for the next call |
| TurnLedger.TurnAccounted | enet/protocol.cpp:1606-1641 | a turn's datagram holds, in this order: the acknowledgements that left the front of their queue, by channel and number; the reliable commands that left theirs, by channel, number and packet, in its order, each put on the wire attempted once more and at this time; and, of the unreliable commands that left the front of their queue, in order, all but those the throttle dropped: a first piece for which the counter of 32 steps, counted up by 7, is above the throttle, and what follows it under its numbers. What did not leave stays in order, behind late commands; a ping is queued when the peer is connected and silent and nothing is queued or on the wire; and a peer that was to disconnect and has sent everything has only its disconnect command left |
| TurnLedger.AcksConserved | enet/protocol.cpp:1259-1310 | over any number of turns, what was acknowledged and what waits is what there was to acknowledge, in order; a peer that was to disconnect drops what waits when it does |
| TurnLedger.PiecesConserved | enet/protocol.cpp:1312-1404 | over any number of turns the throttle judges unreliable commands as it would in one |
| TurnLedger.KeysConserved | enet/protocol.cpp:1466-1588 | over any number of turns, the reliable commands queued or on the wire are those there were, each as often, and the pings |
| TurnLedger.CheckedWhenLate | enet/protocol.cpp:1619-1622 | if the next check is due at its time, timeouts are checked just when the first command on the wire is late |
| HeldBack.AllWait | enet/protocol.cpp:1484-1518 | of what a peer has left after sending, every command of a channel waits because it, or one before it, would begin a window while 4096 commands of the one before are open or any of it and the next seven; or it has data and for it or one before it more would be in transit than the throttle's part of the window, in 32ths, and than a datagram |
| HeldBack.GoesOnly | enet/protocol.cpp:1484-1518 | what goes to the wire has its window open and fits what may be in transit |
| HeldBack.PassFills | enet/protocol.cpp:1522-1532 | a pass over reliable commands ends before the end of the queue only when there are 32 commands or 65 buffers, or the command it has come to does not fit |
| HeldBack.AcksFill | enet/protocol.cpp:1272-1278 | acknowledgements stay in the queue only when the datagram has no room for one more |
| HeldBack.PiecesFill | enet/protocol.cpp:1327-1340 | unreliable commands stay only when it has no room for the first of them |
| SendLoop.StatesAgree | enet/protocol.cpp:136-159 | in its turn a peer goes through the states that the operations of `PeerStates` give it: when it is given up, and when it has sent everything |
| SendLoop.Host.TakeTurn | enet/protocol.cpp:1606-1641 | one peer's turn: acknowledgements, timeouts, reliable commands, a ping when one is due, unreliable commands |
| SendTurns.TurnWorks | enet/protocol.cpp:1606-1734 | a turn never adds to the work, leaves something over for want of room only when it has done some, and otherwise leaves only what is held back |
| SendLoop.Host.SendAcknowledgements | enet/protocol.cpp:1259-1310 | loads acknowledgements until none is left or there is no room |
| SendLoop.Host.SendUnreliable | enet/protocol.cpp:1312-1404 | loads unreliable commands; a packet the throttle stops is dropped with the commands of its numbers that follow |
| SendPasses.AcksSent | enet/protocol.cpp:1270-1306 | the rest is a tail of the queue, nothing is lost, the datagram stays within its limits, and only want of room leaves a rest |
| SendPasses.PiecesSent | enet/protocol.cpp:1322-1401 | the same for unreliable commands |
| SendPasses.PassWent | enet/protocol.cpp:1480-1582 | each command that goes out leaves the queue and is not late in this pass; the pass stops for want of room only when the datagram holds a command; and it allows a ping only when it has sent nothing |
| SendPasses.PassHolds | enet/protocol.cpp:1488-1518 | when a pass ends for no want of room, a second pass would skip everything it left |
| SendPasses.TimedOutReturns | enet/protocol.cpp:1422-1461 | checking timeouts moves commands from the wire to the queue without losing any, and the commands queued or late stay as many |
| PeerRuns.RunOk | enet/protocol.cpp:35-159 | in every state of every run, the two counters are the counts over the peers, the dispatch queue holds exactly the marked peers, each once, and pending, succeeded and zombie peers are in it |
| PeerRuns.EventsInOrder | enet/protocol.cpp:59-117 | in every run, no packet of a connection is reported or taken before its connect or after its disconnect, and each of the two is reported at most once |
| EventRuns.GivenInOrder | enet/protocol.cpp:93-112 | in every run and for every connection: the packets that were reported or taken are, in order, the first of those that became ready on it; and, followed by those that are ready, they are all of them, until the peer's queues are cleared |
| EventRuns.DispatchReports | enet/protocol.cpp:59-117 | a dispatch reports the event of the first peer of the queue that has one, with its number or its first packet; the peers before it leave the queue, and it goes to the end while it has more packets |
| EventRuns.NothingHeldBack | enet/protocol.cpp:59-117 | in every run a dispatch reports an event if and only if some peer has one |
| PeerStories.EventData | enet/protocol.cpp:71-89 | in every run a step reports at most one event; a connect carries the number the other side asked with, a disconnect the number of the disconnect command that ended the connection, and 0 when there was none or it timed out |
| PeerStories.NoEndLost | enet/protocol.cpp:136-159 | in every run, a connection that was reported and is over was reported to have ended, unless the application reset it or disconnected it without waiting |
| PeerStories.SharesRenewed | enet/protocol.cpp:119-145 | in every run, a connection that comes about and an end that is reported set the flag that has the bandwidth limits told anew, and no step of the peers clears it |
| PeerMoves.PeersAdvance | enet/protocol.cpp:826-913 | every step of a host's peers is, for each of them, a step of the handshake, a reset, or one of the advances the handshake's runs allow |
| PeerInvariants.NetKeeps | enet/protocol.cpp:35-57 | a step that changes one peer, with its counters, mark and events, keeps the host's invariant |
| PeerInvariants.LastInOrder | enet/protocol.cpp:91-109 | the slot's state remembers enough for a new event to be in order |
| PeerStates.Host.DispatchIncomingCommands | enet/protocol.cpp:59-117 | takes peers off the queue until one has an event to report, as the function that `EventRuns` is about |
| PeerStates.Host.TakePacket | enet/peer.cpp:221-247 | hands the application the first packet that is ready, if there is one |
| PeerStates.Host.ReportConnect | enet/protocol.cpp:119-134 | a connect is reported at once, or the peer waits as pending or succeeded |
| PeerStates.Host.ReportDisconnect | enet/protocol.cpp:136-159 | a peer that was never reported is reset, another is reported and reset, or waits as a zombie |
| PeerStates.Host.ResetPeer | enet/peer.cpp:371-425 | a reset corrects the counters and takes the peer off the dispatch queue |
| PeerStates.Host.Disconnect | enet/peer.cpp:526-561 | a connected peer becomes disconnecting, any other that is not on its way out is reset |
| PeerStates.Host.DisconnectNow | enet/peer.cpp:495-518 | the peer is reset in every state but disconnected |
| PeerStates.Host.DisconnectAfterwards | enet/peer.cpp:569-582 | a connected peer with something to send waits, another disconnects |
| PeerStates.Host.ReceiveVerifyConnect | enet/protocol.cpp:915-975 | the states and counters after an answer that matches or does not |
| PeerStates.Host.ReceiveBandwidthLimit | enet/protocol.cpp:750-782 | the count of limited peers follows the new limit |
| PeerStates.Host.ReceiveDisconnect | enet/protocol.cpp:797-824 | the state after a disconnect command, in each of the ten |
| PeerStates.Host.ReceiveAcknowledge | enet/protocol.cpp:881-912 | what an acknowledged verify-connect, disconnect or last command does to the state |
| HandshakeRuns.ServedOnce | enet/protocol.cpp:290-312 | in every run, no two slots of a host serve one address under one connect identifier, however often the request is repeated |
| HandshakeRuns.EndsAgree | enet/protocol.cpp:915-975 | in every run, the two ends of a connection whose server slot was not reset name each other and hold crossed session identifiers; while the client's identifiers have not come round, they agree on the channel count as long as both still have their channels, and on the MTU if and only if the client asked for at least 576 |
| HandshakeTerms.ChannelsWithin | enet/protocol.cpp:322-323 | in every run the number of channels two ends agree on is at most what the client asked for and at most the server's limit when it answered, and is one of the two |
| HandshakeTerms.ExchangeTells | enet/protocol.cpp:319-415 | in an exchange each end learns the other's bandwidths and slot, they share identifiers, throttle and number of channels, and the application's number comes through; the number asked for is at least 1 and at most 255 |
| HandshakeTerms.FewOfOneHost | enet/protocol.cpp:290-312 | accepting a request never makes more slots serve one host than are allowed, and for no other reason is one refused that a free slot could serve |
| HandshakeTerms.FirstTerms | enet/protocol.cpp:331-341 | slots never used before come to session 0 both ways, with the default throttle: 2 up, 2 down, every 5000 milliseconds |
| HandshakeTerms.SendsAhead | enet/protocol.cpp:369-381 | what a host may send ahead is 4096 to 65536 bytes, and in between a sixteenth of the smaller limit, in steps of 4096 |
| HandshakeTerms.LetsSend | enet/protocol.cpp:383-395 | what it lets the other side send ahead is, above 4096, no more than asked for and no more than a sixteenth of its own incoming bandwidth |
| HandshakeTerms.TakesWindow | enet/protocol.cpp:953-962 | the client takes the smaller of the two windows |
| HandshakeTerms.TakesMtu | enet/protocol.cpp:943-951 | and the smaller of the two MTUs, the answer's cut to 576 to 4096 |
| HandshakeRuns.RunOk | enet/protocol.cpp:274-422 | the invariant behind both holds in every state of every run of any number of hosts |
| HandshakeStories.ResetUncrosses | enet/protocol.cpp:325-341 | the condition on resets is needed: a run that ends with session identifiers that are not crossed |
| HandshakeStories.MtuDisagrees | enet/protocol.cpp:361-367 | a run that ends with an MTU of 100 on one side and 576 on the other |
| Handshake.NextSession | enet/protocol.cpp:331-341 | a session identifier is never the one its slot used last |
| Handshake.Host.Connect | enet/host.cpp:173-253 | the client's slot and the request it sends, or nothing when no slot is free |
| Handshake.Host.FindSlot | enet/protocol.cpp:290-312 | a slot is found if and only if one is free, the host has not too many from that address, and none serves this request; then it is the first free one |
| Handshake.Host.ReceiveConnect | enet/protocol.cpp:274-422 | the server's slot and its answer, with everything negotiated |
| Handshake.Host.ReceiveVerify | enet/protocol.cpp:915-975 | what the client's slot takes from the answer |
| Bandwidth.Host.BandwidthThrottle | enet/host.cpp:327-490 | on a call that throttles, which is when `ThrottleClock` says: every peer's throttle and limit as the two rounds give them, each at most 32 and the throttle at most its limit; after a change, a division of the incoming bandwidth that is fair and shared, and the limits announced; on any other call nothing |
| ThrottleClock.SecondApart | enet/host.cpp:331-344 | over any sequence of calls, two that throttle are at least 1000 milliseconds apart |
| ThrottleClock.EpochIs | enet/host.cpp:341-347 | the epoch is the time of the last call that was not too early, also when nobody is connected |
| ThrottleClock.AfterASecond | enet/host.cpp:331-341 | a call a second or more after that one, but less than a round of the clock, is not too early |
| ThrottleClock.ChangedBetween | enet/host.cpp:435-437 | between two announcements something has changed |
| ThrottleClock.ChangeWaits | enet/host.cpp:435-437 | and after a change the next call that throttles announces |
| OutgoingShares.OwnShare | enet/host.cpp:374-407 | a peer whose part at the common limit is more than it can take gets the largest number of 32ths that it can, but at least one; any other gets what is left for all of them, and no more than it can take |
| OutgoingShares.CommonShare | enet/host.cpp:367-372 | the common limit is 32 when all the data fits, and otherwise the largest number of 32ths that does |
| OutgoingShares.NoMoreThanSent | enet/host.cpp:349-433 | all together the peers are sent no more than the host can send, but for peers held at a limit of 1 that even that exceeds |
| Bandwidth.FairShares | enet/host.cpp:435-489 | under a fair division every peer that reports a bandwidth is told the smaller of it and the limit; all peers are limited, to no more than the host's bandwidth together, if and only if all report one and the bandwidth is a byte for each |
| Bandwidth.ToldUnlimited | enet/host.cpp:459-468 | the input for which it is not: a peer that reports 0 is told 0, which means no limit |
| Bandwidth.DivideIncoming | enet/host.cpp:443-469 | the loop ends in a max-min fair division: settled peers are exactly those asking for less than the limit, and the limit could not be a byte larger |
| Bandwidth.ThrottleOutgoing | enet/host.cpp:349-433 | the loop ends with every connected peer throttled as its first round and the final throttle say; no subtraction goes below zero |
| Bandwidth.Round | enet/host.cpp:374-407 | one pass: which peers are over, what is subtracted, and that both totals stay at or above zero |
| Bandwidth.SecondRoundIdle | enet/host.cpp:365-408 | a second pass over the peers changes nothing, so the loop always ends after it |
| Bandwidth.ThrottledBounded | enet/host.cpp:389-428 | a connected peer's throttle is at most its limit, that at most 32, and its data counts start over |
| Crc.ComputeCrc32 | enet/packet.cpp:142-163 | the table-driven checksum is that of the bit-at-a-time reflected register (section 8 of RFC 1952) over the joined buffers, however they are split |
| Crc.Crc32.InitializeCrc32 | enet/packet.cpp:118-140 | the table, computed in the unreflected register, holds for each byte eight steps of the reflected one |
| Crc.TableStep | enet/packet.cpp:156-156 | one lookup is eight steps of the reflected register with the byte entered into it |
| Crc.ReflectCrc | enet/packet.cpp:104-116 | the loop mirrors the lowest bits |
| Crc.StepsMirrored | enet/packet.cpp:128-136 | the unreflected and the reflected register are mirror images, step by step |
| Crc.BurstDetected | enet/packet.cpp:142-163 | any change confined to four consecutive bytes changes the checksum |
| RingQueue.NothingLost | gdnet_queue.h:57-81 | under every interleaving of the locked sections of one producer and one consumer, popped items followed by the ring's contents are the accepted ones |
| RingQueue.SecondProducerEmpties | gdnet_queue.h:57-66 | with two producers that both saw the last free place, the ring reads as empty after both have stored |
| RingQueue.GDNetQueue.Push | gdnet_queue.h:57-66 | appends the item unless one fewer than the array's size are queued |
| RingQueue.GDNetQueue.Pop | gdnet_queue.h:68-81 | takes the oldest item, if there is one |
| RingQueue.GDNetQueue.Size | gdnet_queue.h:40-55 | the number of items queued, around the end of the array |
| RingQueue.GDNetQueue.Clear | gdnet_queue.h:83-91 | empties the queue |

## Findings

Where the code does not do what one would expect of it, the exact condition is proved.

- A channel can come to a standstill (`EightWindows.Standstill`). When all acknowledgements of a
  command are lost until the receiver is eight windows past it, no later acknowledgement of it is
  queued (enet/peer.cpp:598-599), and the window after the receiver's cannot begin while it is open.
- Packets in very many fragments. Every packet is released at most once and as it was sent
  (`FragmentDelivery.RebuiltOnce`). Of one that reaches beyond the window after the one it begins in,
  a late fragment can begin a second assembly (`WideFragments.SecondExactly`, `SecondBegins`), which is
  never completed and stands in the way of the command 65536 numbers on (`SecondAssembly`,
  `StandsInTheWay`). One that reaches more than 7 windows past the command before it is never released
  at all (`NeverReleased`): its last fragments wait for acknowledgements that are refused until the
  packet is whole.
- Unreliable packets are sent without regard to the windows of reliable ones. When 65536 reliable
  commands are queued ahead of one, it is dispatched ahead of packets sent before it (`Overtaken`);
  below that lead the order holds (`LeadExact`, `InOrderOnce`).
- Of incomplete unreliable packets of the current reliable number only the last two survive a
  dispatch (`Unreliable.AtMostTwo`, `IncompleteLost`).
- A peer that was to disconnect after everything was sent drops the acknowledgements that still wait
  when it does (enet/peer.cpp:539, `TurnLedger.AcksConserved`).
- A throttled unsequenced packet takes the unsequenced packets right behind it along, for all of
  them have the numbers 0 and 0 (enet/protocol.cpp:1365-1367, `UnreliableQueues.ThrottledTogether`).
- A client whose MTU is under 576 keeps it, while the server takes 576
  (`HandshakeRuns.EndsAgree`, `HandshakeStories.MtuDisagrees`).
- When a server slot is reset during a handshake and the repeated request takes it again, the client
  may take the first answer and the two ends hold session identifiers that do not match
  (`HandshakeStories.ResetUncrosses`).
- A peer that reports no outgoing bandwidth, or any peer when the host's incoming bandwidth leaves
  less than a byte for each, is told 0, which the other side takes for no limit
  (`Bandwidth.FairShares`, `ToldUnlimited`).
- Groups 33 to 63 unsequenced windows late are delivered again; windows come round after 64, so those
  65 to 96 windows late are ignored (`Unsequenced.LateTwice`, `LateExactly`).
- The ring queue is for one producer and one consumer: a second producer can empty it
  (`RingQueue.SecondProducerEmpties`).
- The documentation of `enet_peer_disconnect` (enet/peer.cpp:520-525) promises an event once the
  disconnection is complete; a peer that is not connected yet is reset at once and none is reported
  (enet/peer.cpp:556-560). The model follows the code.

## Left out

- Decompressing.Decompress: stops with `beyond` where a stream, which no compressor made, reads a
  code beyond the root's total; there the C code goes on with 16-bit values that wrap.
- Compressing.Compress: asks that every buffer after the first be nonempty, as the loop that moves to
  the next buffer does without a test (enet/compress.cpp:275-284).
- The code under ENET_CONTEXT_EXCLUSION in enet/compress.cpp, which line 40 disables.
- ReliableDelivery.ReliablyDelivered: packets in fragments keep to two windows; for those that do not,
  `WideFragments.SecondBegins` and `StandsInTheWay` show what is lost, and `FragmentDelivery` what holds.
  The receiver stays connected (one that waits to disconnect discards data). The network's bounded
  lifetime is assumed: nothing arrives once the sender has first sent a command more than 8 windows
  beyond it. `Windows.StaleAccepted` shows why.
- ReliableDelivery.InFlightAccounted: `reliableWindows` bits are a set here; `Windows.MaskBits` ties
  the test on the set to the shifts of a word. `sendAttempts` is unbounded.
- FragmentDelivery.RebuiltOnce: follows one packet on a channel; the other commands of the channel
  appear only through the cursor and their acknowledgements.
- Fragmentation.Split: reliable fragments; an unreliable packet in fragments is one command with a
  number of missing fragments (`UnreliableDelivery.Outgoing.Send`).
- UnreliableDelivery.InOrderOnce: the reliable number moves by at most 8 windows in one dispatch (by
  at most 7, says `ReliableDelivery.CursorSteps`); fragments of unreliable packets
  (enet/protocol.cpp:623-739) are an input that lowers the number still missing; and a packet
  arrives only while the receiver is at most 8 windows past its number.
- Unsequenced.AtMostOnce: groups more than 32 windows late are excluded; `LateTwice` shows why, and
  `LateExactly` what becomes of them.
- SendLoop.Host.SendOutgoingCommands: no checksum or compression of the datagram, no socket errors,
  and packet loss statistics are left out. Each queued command fits an empty datagram, as
  `FragmentFit` proves of every command of a packet. `TakeTurn` calls the reliable pass and the
  timeouts as the functions that `Sending.Peer`'s methods are proved equal to.
- GivingUp.AtMaximum: the late commands were sent within the last day, and none at time 0, which the
  code takes for no time; `GivingUp.AtLimit` asks the same. A round trip time and its variance are in
  the range that measuring keeps them in (`RoundTrips.StaysSteady`).
- FragmentFit.FragmentsFit: an MTU of at most 28 bytes, 32 with a checksum, where the length of a
  fragment wraps in the C code (enet/peer.cpp:111-113), is left out.
- Bandwidth.Host.BandwidthThrottle: products are assumed to fit 32 bits, `connectedPeers` to be the
  number of connected peers (`PeerRuns.RunOk`), and no peer's epoch to equal the current time
  beforehand, as it could after the millisecond clock came round.
- HandshakeRuns.EndsAgree: one command a datagram, no address of all hosts; the channel counts and
  MTUs are compared only while a client has asked for at most 2^32 connections.
- PeerRuns.RunOk: whether an acknowledgement matched, whether queues are empty, and when a timeout
  happens are inputs of the steps; the send and receive halves are modelled on their own.
- PeerStates.Host.ReceiveAcknowledge: the timing half of the function is `RoundTrips.Clock.Measure`.
- RingQueue.GDNetQueue.Clear: calls the locking methods with the mutex held, which works for a mutex
  that its owner may lock again; deleting the items is not modelled.
- Datatypes carry history where a theorem needs it: a command's whole number, a slot's epoch, a
  slot's `accepted`. No operation decides on it.
- Linked lists (enet/list.cpp) are sequences; pointers into them are positions.
- Allocation failure, callbacks, reference counts of packets, packet flags and byte order.
- Exact accounting of waiting data: removing dropped commands does not subtract from it in the C code.
- Sockets, name resolution and clocks (enet/unix.cpp, enet/win32.cpp): times are inputs.
- The Godot classes (gdnet_host.cpp, gdnet_peer.cpp and the like) and their threads.
- Liveness: nothing is claimed about what a network that loses everything lets through.
