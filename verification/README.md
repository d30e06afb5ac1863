# Teonet-go: the reliable transport and the formats around it

A Dafny model of the parts of Teonet-go where being right is hard, with proofs. It
covers TR-UDP, the sliding-window protocol over UDP; the splitting of large messages;
the reassembly of L0 packets from a byte stream; the wire formats below them; and the
two compare-and-set protocols of the key-value service.

`dafny verify dfyconfig.toml` checks everything.

## How the transport is modelled

Everything that touches a channel runs on one goroutine, so each case of its `select` is
one atomic step. There are four layers:

- `Transport` is one channel as a value, and each step as a function from the channel to
  the channel after it and what it emitted: events for the user, packets for the writer,
  answers to writes. It is generic in the payload.
- `SendQueues` and `Kernel` are the objects the goroutine updates: the send queue with its
  list and its index, the channel's fields, the bounded event channel. Every method is
  proved to do what the function of `Transport` does (`Did`). `KernelRuns` makes a channel and
  serves it with any inputs in any order, and proves that the result is a run of
  `ChannelRuns`, so that all that is proved of those runs holds of the objects.
- `StepLaws` says of single steps what they do in full: who is answered, what goes out again
  and when, what the user hears, when the window moves.
- `ChannelRuns` and `SendQueueRuns` are about every run of one channel, whatever arrives.
  `Reassembly` is about the receiver alone. `Session`, `SessionReceive`, `SessionSend`,
  `SessionSafety`, `SessionRuns`, `SessionEpochs`, `SessionMoves` and `SessionResets` put
  two channels on a network that loses, repeats and reorders, and prove what both users can
  rely on and when they cannot; `SessionProgress` that a session can always go on.

A packet id is 32 bits wide, wraps and skips 0. `SeqNum.Wire(n)` is the id of the n-th
packet since a reset; the proofs speak of n and show that the code's comparison of ids
decides the order of the numbers.

What the kernel reads from outside is an argument of the step: the clock and the
retransmission delay, what the speed counters show, and how many queued packets the event
channel still has room for (`budget`). In `Kernel` the budget is not assumed: it is what
came of asking `sendEventAvailable`, while the user reads at any time.

In a session the n-th message written carries n beside its bytes. The channel cannot look
at it, being generic. A packet in flight carries a tag that no step reads, the number of
the message it carries or acknowledges.

The claims about a session rest on two hypotheses, and of each it is shown when it is
needed and when it holds by itself:

- *Window*: what is in flight, in a send queue or in a receive queue is within 2^31-2 of
  the receiver's position. `ReachIsTight` shows that one more is too many. It need not be
  assumed while at most 2^31-2 messages are written (`ShortSessionIsReliable`), and with
  room in the event channel it need not be assumed of the receive queue
  (`SpaciousSessionIsReliable`).
- *Clean*: no first packet arrives while another is expected, and no other packet while the
  first is expected. An arrival that is not clean breaks the guarantee, unless it comes before
  the first from a sender that has closed its channel, and no other DATA packet does
  (`ArrivalStaysReliableIff`): a first packet that comes again is given to the
  user again (`FirstPacketTwice`), and a packet that comes before the first is acknowledged
  and thrown away, so that its message is lost (`SecondMessageLost`), or the RESET it causes
  lets later messages overtake earlier ones (`OrderLost`). It takes no more for this than
  that the first two packets of a session change places. Once a direction is established,
  that is, packet 0 went through and no copy of it is left, no arrival in it can be unclean.
  So when each direction is established or unused, cleanness need not be assumed, whichever
  form the window takes (`EstablishedSessionIsReliable`, `EstablishedSpaciousIsReliable`,
  `EstablishedShortIsReliable`); new channels reach such states (`EstablishedIsReached`).

## Where code and comments differ

The model follows the code.

- `split` says that its callback is not called for short data; it is called, once, with
  the data as it is (`teonet/teonet/split.go:36-45`).
- `PacketCheck` documents the results 0, -1 and 1; with an empty buffer it also returns
  -3, for a wrong header (`teocli/teocli/teonet_l0_client.go:150-209`).
- A bare 8-byte L0 header is not taken for a packet until one more byte follows it
  (`teocli/teocli/teonet_l0_client.c:65-88`).
- A message of exactly 448 bytes is split into one fragment whose number reads as 32768
  and not 0, so its command is not sent. And past 32768 fragments the number of a fragment
  reads as the last one's. `ComesBackIff` proves that these are the only failures.
- GetID creates a counter that it does not find by an unconditional update. Two clients
  that both find none can be given the same number; and one is enough, if it asks a replica
  that has not got the new counter yet (`OneMissIsEnough`). `IdsAreDistinctIff` proves that
  numbers are distinct exactly if no select can find the counter missing.

## Model

| member | source | states |
|---|---|---|
| SeqNum.NextID | trudp/trudp/channel.go:94-117 | the id after the one of number n is the one of number n+1, and never 0 |
| SeqNum.NextIDFollowsWire | trudp/trudp/channel.go:94-117 | stepping an id follows the unbounded numbers through every wrap |
| SeqNum.DistanceIsExact | trudp/trudp/packet_process.go:127-144 | packetDistance of two ids is the distance of their numbers, plus one for each id 0 skipped between them |
| SeqNum.DistanceIsFaithful | trudp/trudp/packet_process.go:127-144 | for numbers at most 2^31-2 apart its sign is the sign of their difference, and it is 0 only for equal ones |
| SeqNum.ReachIsTight | trudp/trudp/packet_process.go:127-144 | one farther apart, a later packet can look earlier |
| SeqNum.WireCollision | trudp/trudp/channel.go:94-117 | two packets have the same id exactly if they are a multiple of 2^32-1 apart, and packet 0 shares its id with none |
| SendQueues.SendQueue.Find | trudp/trudp/send_queue.go:150-157 | the index gives the entry that a search of the list gives, or none if there is none |
| SendQueues.SendQueue.Add | trudp/trudp/send_queue.go:128-147 | a new packet goes to the back; one that is there keeps its place and counts an attempt; list and index stay paired |
| SendQueues.SendQueue.Remove | trudp/trudp/send_queue.go:160-168 | exactly the entry with this id leaves list and index, the others keep their order |
| SendQueues.SendQueue.Reset | trudp/trudp/send_queue.go:37-43 | list and index are empty |
| SendQueues.SendQueue.IndexFinds | trudp/trudp/send_queue.go:150-157 | an id is in the index exactly if it is in the list, and both mean the same entry |
| SendQueues.SendQueue.IdsAreDistinct | trudp/trudp/send_queue.go:128-147 | no id is in the list twice |
| Kernel.Trudp.SendEventAvailable | trudp/trudp/trudp.go:238-241 | whether more than 16 places of the event channel are free at that moment |
| Kernel.ChannelData.constructor | trudp/trudp/channel.go:190-207 | a new channel expects and sends id 0 and has nothing queued |
| Kernel.ChannelData.SendKept | trudp/trudp/packet.go:113-125 | the packet goes to the writer and into the send queue |
| Kernel.ChannelData.WriteToDirect | trudp/trudp/process.go:192-196 | one DATA packet with the channel's id is sent and kept, the id steps on, the write is answered |
| Kernel.ChannelData.WriteTo | trudp/trudp/process.go:182-201 | a write is sent only if none waits and the window has room; otherwise it waits last |
| Kernel.ChannelData.WriteFromQueue | trudp/trudp/process.go:204-218 | the first waiting write goes out in any case, more while the window has room, in order |
| Kernel.ChannelData.WriteQueueReset | trudp/trudp/process.go:220-225 | every waiting write is answered with false, in order |
| Kernel.ChannelData.Reset | trudp/trudp/channel.go:44-58 | queues empty, both ids 0, waiting writes refused, one event |
| Kernel.ChannelData.Destroy | trudp/trudp/channel.go:61-91 | the same for the queues, once; a disconnect event only if the channel was connected, waiting for room if there is none |
| Kernel.ChannelData.ReceiveQueueProcess | trudp/trudp/receive_queue.go:29-50 | delivers queued packets in order until one is missing or the event channel is full, and says which |
| Kernel.ChannelData.PacketDataProcess | trudp/trudp/packet_process.go:148-213 | does one DATA packet, ends, and leaves at least 14 places in the event channel |
| Kernel.ChannelData.ConnectCheck | trudp/trudp/channel.go:171-185 | the first packet of an existing channel connects it, once |
| Kernel.ChannelData.HandlePacket | trudp/trudp/packet_process.go:36-122 | each type of packet does its part; an ACK removes its packet before it releases a write |
| Kernel.ChannelData.Process | trudp/trudp/packet_process.go:22-125 | from a channel with space, no event of one packet finds the event channel full: at least 14 places are left |
| Kernel.ChannelData.OnRead | trudp/trudp/process.go:102-122 | a packet is processed whenever more than 16 places of the event channel are free, and thrown away with no effect only when they are not |
| Kernel.ChannelData.ResendProcess | trudp/trudp/send_queue.go:89-125 | resends due entries from the front, stops at the first that is not due, destroys the channel at one resent 50 times |
| Kernel.ChannelData.KeepAlive | trudp/trudp/channel.go:279-293 | a ping after quiet, the end of the channel after silence |
| Kernel.ChannelData.OnTimer | trudp/trudp/process.go:135-156 | one tick, with the event channel full or not: resend, keep-alive and window, in that order |
| KernelRuns.Serve | trudp/trudp/process.go:98-159 | a new channel served with any inputs is in the state of a run of the actions they amount to, and has emitted what that run emits; exactly the packets are left out that came when so many events were unread, none if there never were |
| StepLaws.ResendLaw | trudp/trudp/send_queue.go:89-125 | a scan puts on the wire, in order, exactly the due entries at the head of the queue, counts an attempt and sets the time of each, touches no other, and destroys the channel exactly if the next one is due and out of attempts |
| StepLaws.TickLaw | trudp/trudp/process.go:135-156 | a tick sends these and then a ping if it was quiet; the channel ends exactly by exhaustion or silence, and the user hears of it if it was connected; the new window |
| StepLaws.WindowLaw | trudp/trudp/send_queue.go:57-83 | exactly when the window grows by 128, shrinks by 4 or stays |
| StepLaws.WriteLaw | trudp/trudp/process.go:182-201 | a write goes out at once exactly if none waits and the window has room, and waits last otherwise |
| StepLaws.ReleaseLaw | trudp/trudp/process.go:204-218 | a release sends the waiting writes in order under consecutive ids, the first in any case, exactly until none waits or the window is full |
| StepLaws.DistanceLaw | trudp/trudp/packet_process.go:127-144 | the distance of any two ids is the only number of 32 signed bits that leads from one to the other |
| StepLaws.DrainLaw | trudp/trudp/receive_queue.go:29-50 | draining delivers queued packets from the expected one on, exactly until one is missing or the room is used up |
| StepLaws.DataLaw | trudp/trudp/packet_process.go:148-213 | what becomes of a DATA packet: delivered, refused with RESET, dropped, or queued |
| StepLaws.RestartLaw | trudp/trudp/packet_process.go:164-172 | a first packet while another is expected: everything queued goes, waiting writes are refused, and it is delivered |
| StepLaws.AnswerLaw | trudp/trudp/packet_process.go:36-122 | what goes back at once for each type of packet, with its id |
| StepLaws.NoticeLaw | trudp/trudp/packet_process.go:36-122 | what the user hears for each type of packet, and what the channel becomes |
| StepLaws.UserHearsLifeStory | trudp/trudp/channel.go:61-91 | in every run the user hears once, first, that the channel is connected, and once, last, that it is disconnected, exactly if it was connected and is destroyed |
| ChannelRuns.DeliversInSequence | trudp/trudp/packet_process.go:148-213 | whatever arrives, the ids delivered between two resets are Wire(0), Wire(1), ..., each with the payload of a packet that arrived under that id since |
| ChannelRuns.DataIsAccountedFor | trudp/trudp/packet_process.go:148-213 | DATA received since the last reset = delivered + queued + dropped or answered with RESET; what is queued arrived as it is |
| ChannelRuns.WritesAreFifo | trudp/trudp/process.go:182-225 | answered writes followed by waiting ones are all writes, in order; those sent since the last reset carry the ids in order and with the waiting ones are all writes since; a waiting write implies a packet to wait for |
| ChannelRuns.SendQueueIsBounded | trudp/trudp/send_queue.go:57-83 | in every run the window is a multiple of 4 in 4..2172, and the send queue is at most 2172 and the ACKs that matched nothing; its ids are distinct |
| ChannelRuns.WindowStaysInRange | trudp/trudp/send_queue.go:57-83 | one adaptation keeps the window a multiple of 4 in 4..2172 |
| ChannelRuns.DataEpoch | trudp/trudp/packet_process.go:148-213 | one DATA packet, whatever its id, keeps the accounts of its epoch or starts a new one with itself |
| ChannelRuns.WriteFromQueueReleases | trudp/trudp/process.go:204-218 | after an ACK no write waits without a packet in the send queue, and the queue grows by one at most beyond the window |
| ChannelRuns.ActionKeeps | trudp/trudp/process.go:98-159 | every case of the kernel's select keeps all of the above |
| ChannelRuns.LateWriteIsSentOnce | trudp/trudp/process.go:182-196 | a write that reaches the kernel after the end of its channel is sent once and answered as sent, and never sent again |
| SendQueueRuns.SendQueueIsInOrder | trudp/trudp/send_queue.go:89-147 | in every run, wraps and reused ids included, the entries are packets of the epoch in the order of their first sending, with their payloads |
| SendQueueRuns.AttemptsAreWithinIff | trudp/trudp/send_queue.go:106-147 | in a run no entry ever has more than 50 attempts exactly if no packet is sent under an id whose waiting entry already has 50 |
| SendQueueRuns.ShortEpochsNeverReuse | trudp/trudp/channel.go:103-117 | while at most 2^32-1 packets are sent between resets, none is sent under a waiting id, so that all are kept |
| SendQueueRuns.SentIsKeptIff | trudp/trudp/send_queue.go:128-147 | a packet joins the send queue exactly if none waits under its id |
| SendQueueRuns.ReusedIdLosesPayload | trudp/trudp/send_queue.go:128-147 | otherwise it is answered as sent and kept nowhere, and the old packet has one attempt more |
| SendQueueRuns.AttemptsCanExceed | trudp/trudp/send_queue.go:106-147 | a new channel can reach a state in which a write is kept nowhere and an entry comes to 51 attempts |
| SendQueueRuns.ResendsOne | trudp/trudp/send_queue.go:106-147 | a resend changes the time and the attempts of its own entry and nothing else, whatever the ids |
| Reassembly.DeliversLongestRun | trudp/trudp/packet_process.go:148-213 | with event space, when packet 0 comes first and once and each packet within 2^31-2 of the first one missing, the user has exactly the longest run of messages without a gap, and the rest is queued, nothing else |
| Reassembly.LongestRunIff | trudp/trudp/packet_process.go:148-213 | of arrivals within that reach, this holds after every one exactly if packet 0 comes first and once |
| Reassembly.OrderDoesNotMatter | trudp/trudp/packet_process.go:148-213 | two such arrival orders of the same set of packets, with any repeats but of packet 0, leave the same deliveries and the same queue |
| Reassembly.MoreRoomIsNoDifferent | trudp/trudp/receive_queue.go:29-50 | once there is room for the whole queue, more makes no difference |
| SessionReceive.DataSafe | trudp/trudp/packet_process.go:148-213 | an arriving message leaves the user with a prefix of what was written, is held afterwards, and makes nothing held be forgotten |
| SessionSafety.ReceiveAckKeeps | trudp/trudp/packet_process.go:57-74 | an ACK removes only a message that the receiver holds |
| SessionSafety.MoveKeeps | trudp/trudp/process.go:98-159 | every step of either side, and a loss, keeps the invariant of the session in both directions |
| SessionRuns.SessionIsReliable | trudp/trudp/packet_process.go:22-213 | in every state of a clean run within the window, over a network that loses, repeats and reorders, across wraps, each user has a prefix of what the other wrote, and each message sent is delivered, queued or still in the send queue |
| SessionRuns.ShortSessionIsReliable | trudp/trudp/packet_process.go:22-213 | the same for clean runs with no window assumed, of the network or of any queue, while at most 2^31-2 messages are written each way |
| SessionProgress.NextMessageWaits | trudp/trudp/packet_process.go:50-74 | the message the receiver waits for is in its queue or in the sender's |
| SessionProgress.ResendDelivers | trudp/trudp/send_queue.go:89-125 | once it is due, the tick puts its packet in flight, and when that arrives the user has the message and an acknowledgement is on its way |
| SessionEpochs.SpaciousSessionIsReliable | trudp/trudp/receive_queue.go:29-50 | the same for clean runs with event space, and a window on the network and the send queues only; and nothing delivered stays in a receive queue |
| SessionEpochs.EstablishedStays | trudp/trudp/packet_process.go:164-181 | a direction that is established stays so through every clean step of either side |
| SessionEpochs.SettledIsClean | trudp/trudp/packet_process.go:164-181 | from a direction that is established, or in which nothing was written, only clean packets arrive |
| SessionEpochs.EstablishedSessionIsReliable | trudp/trudp/packet_process.go:22-213 | once each direction is established or stays unused, a run within the window is reliable and clean from there on |
| SessionEpochs.EstablishedSpaciousIsReliable | trudp/trudp/packet_process.go:22-213 | the same with event space, the window assumed of the network and the send queues only |
| SessionEpochs.EstablishedShortIsReliable | trudp/trudp/packet_process.go:22-213 | the same with no window assumed, while at most 2^31-2 messages are written each way |
| SessionEpochs.EstablishedIsReached | trudp/trudp/packet_process.go:154-166 | new channels reach one established direction, and both |
| SessionResets.ArrivalStaysReliableIff | trudp/trudp/packet_process.go:164-181 | in every state of the invariant and the window, an arriving DATA packet leaves the session reliable, at once and when its ACK arrives, exactly if it is clean, or comes before the first from a sender that has closed its channel |
| SessionResets.ReachedStaysReliableIff | trudp/trudp/packet_process.go:164-181 | so in every state that new channels reach by a clean run within the window |
| SessionResets.EarlyIsForgotten | trudp/trudp/packet_process.go:174-181 | after a packet before the first and its ACK, its message is held by neither side |
| SessionMoves.RepeatedFirst | trudp/trudp/packet_process.go:164-172 | a first packet that comes again is given to the user again |
| SessionMoves.BeforeFirst | trudp/trudp/packet_process.go:174-181 | another packet before the first is acknowledged, not kept, and answered with RESET |
| SessionResets.FirstPacketTwice | trudp/trudp/packet_process.go:164-172 | a run in which one message is written and delivered twice |
| SessionResets.SecondMessageLost | trudp/trudp/packet_process.go:50-74 | a run in which the first two packets change places and the second message is lost |
| SessionResets.OrderLost | trudp/trudp/packet_process.go:174-181 | a run with no repeated first packet in which a RESET lets the third message be delivered as the first |
| Bytes.ByteChecksum | trudp/trudp/packet.c:121-130 | the 8-bit sum of a stretch of an array |
| Bytes.ChecksumNotices | trudp/trudp/packet.c:121-130 | the sum differs after any change of one byte |
| Bytes.ChecksumAdds | trudp/trudp/packet.c:121-130 | it is the sum of the bytes modulo 256 |
| Bytes.LittleEndian | trudp/trudp/packet.c:51-81 | numbers stand with the low byte first |
| TrudpHeader.HeaderCreate | trudp/trudp/packet.c:208-219 | the header written in place, with the checksum of its fields, and nothing behind it touched |
| TrudpHeader.CreateNew | trudp/trudp/packet.c:420-452 | a new DATA or PING packet is its header and a copy of its data |
| TrudpHeader.UpdateTimestamp | trudp/trudp/packet.c:227-231 | in place, the new time and the new checksum |
| TrudpHeader.Check | trudp/trudp/packet.c:335-341 | valid exactly if the length and the checksum in the header are right |
| TrudpHeader.CreatedPacket | trudp/trudp/packet.c:208-219 | every field and the data are read back, and the packet is valid exactly for payloads below 4096 bytes |
| TrudpHeader.HeaderLayout | trudp/trudp/packet.c:51-81 | where each field lies in the twelve bytes |
| TrudpHeader.ValidIsCreated | trudp/trudp/packet.c:335-341 | a valid packet is what its fields create, exactly if it has this protocol version |
| TrudpHeader.TimestampUpdated | trudp/trudp/packet.c:227-231 | a new timestamp changes no other field and keeps a valid packet valid |
| TrudpHeader.HeaderErrorIsNoticed | trudp/trudp/packet.c:335-341 | a valid packet with any one header byte changed is not valid |
| TrudpHeader.AnswerMatches | trudp/trudp/packet.c:239-272 | an answer to a valid packet is valid and names its id, its channel and its time, and one to a PING brings its data back |
| SplitKeys.KeysAreDistinct | teonet/teonet/split.go:103-105 | two keys are equal exactly if sender, packet number and fragment number are, also for names with colons and digits |
| SplitKeys.DecimalStandsFor | teonet/teonet/split.go:103-105 | numbers are written in decimal without leading zeros |
| Split.SplitPacket.SplitData | teonet/teonet/split.go:39-80 | the fragments that are sent, for every length, and the packet number counted |
| Split.SplitPacket.CombineData | teonet/teonet/split.go:84-139 | what becomes of the map and what is returned, in every case |
| Split.FragmentReads | teonet/teonet/split.go:49-66 | combine reads from a fragment the numbers and the data split put there |
| Split.FragmentLayout | teonet/teonet/split.go:49-66 | where the numbers, the mark of the last fragment and the command lie |
| Split.CombineLaw | teonet/teonet/split.go:84-139 | of whatever bytes in the map: a fragment waits or, marked as the last, combines all before it, up to the first that is missing or too short; what is returned and which keys go, in every case |
| Split.GatherAll | teonet/teonet/split.go:116-136 | with all fragments there, the loop rebuilds the message and deletes exactly its keys |
| SplitRuns.CombineUndoesSplit | teonet/teonet/split.go:39-139 | for more than 448 bytes in at most 32768 fragments, in any order but the last one last, among fragments of others: the message comes back, its keys leave the map, the others stay as they would be without it |
| SplitRuns.OthersUndisturbed | teonet/teonet/split.go:84-139 | to all other messages it is as if these fragments had not arrived |
| SplitRuns.ComesBackOnceComplete | teonet/teonet/split.go:116-136 | the last fragment brings the message back exactly if all the others have arrived before it |
| SplitRuns.CommandIsLost | teonet/teonet/split.go:62-64 | at 448 bytes the last data byte comes back as the command |
| SplitRuns.NumberOverflows | teonet/teonet/split.go:49-54 | past 32768 fragments a short wrong message comes back early |
| SplitRuns.ComesBackIff | teonet/teonet/split.go:39-139 | in order, a split message comes back exactly if it is not of 448 bytes and has at most 32768 fragments |
| L0Packet.CreateInBuffer | teocli/teocli/teonet_l0_client.c:107-132 | the packet built in the caller's buffer, or 0 if it does not fit |
| L0Packet.PacketLayout | teocli/teocli/teonet_l0_client.c:107-132 | where each field and checksum lies in a packet |
| L0Packet.CreatedReadsBack | teocli/teocli/teonet_l0_client.go:100-120 | creation succeeds exactly for names of at most 254 bytes without a zero byte and data of at most 65535, and then gives a well-formed packet with every field |
| L0Stream.TeoLNull.PacketCheck | teocli/teocli/teonet_l0_client.go:155-209 | packet, code and read buffer of every branch |
| L0Stream.BufferAndChunk | teocli/teocli/teonet_l0_client.go:155-209 | what a call does depends only on the buffer followed by the chunk, not on where one ends |
| L0Stream.TeoLNull.DrainLoop | teonet/teonet/l0_process.go:42-58 | the loop ends, and hands on the packets of the bytes it has |
| L0Stream.VerdictOnPrefix | teocli/teocli/teonet_l0_client.c:65-88 | the verdict on every beginning of a stream of well-formed packets |
| L0Verdict.VerdictLaw | teocli/teocli/teonet_l0_client.c:65-88 | more than a header is taken exactly if it begins with a sound packet, kept exactly if a well-formed packet begins like that, and thrown away otherwise |
| L0Verdict.WrongIsThrownAway | teonet/teonet/l0_process.go:42-58 | bytes that neither are nor become a packet are thrown away, all of them, and no others are |
| L0Verdict.StreamRecovers | teocli/teocli/teonet_l0_client.go:155-209 | after wrong bytes, a stream of well-formed packets comes out whole again |
| L0Stream.EveryByteIsAccountedFor | teonet/teonet/l0_process.go:42-58 | for arbitrary bytes in arbitrary chunks: handed on, thrown away and buffered bytes are the input, in order |
| L0Stream.HandedOnIsWhole | teonet/teonet/l0_process.go:42-58 | what is handed on is as long as its header says, and both its checksums are right |
| L0Stream.StreamComesBack | teocli/teocli/teonet_l0_client.go:155-209 | however a stream of well-formed packets is cut, exactly those come out, in order, nothing left and nothing thrown away |
| L0Stream.Send | teocli/teocli/teonet_l0_client.go:217-233 | the writes are full chunks of 512 bytes and a rest, and join to the packet |
| L0Stream.SentComesBack | teocli/teocli/teonet_l0_client.go:217-233 | what one side sends in its chunks is what the other side's loop hands on |
| TeoPacket.CreatePacketFrom | teonet/teonet/packet.c:32-50 | the bytes of the allocated packet |
| TeoPacket.NewPacket | teonet/teonet/packet.go:27-45 | a packet with the name zero-terminated |
| TeoPacket.PacketData.ParsePacket | teonet/teonet/packet.c:61-87 | when a packet is valid, and the fields found in it; an empty one panics in the caller |
| TeoPacket.ParseUndoesCreate | teonet/teonet/packet.c:32-87 | name, command and data come back exactly for names of at most 254 bytes without a zero byte |
| TeoPacket.CreateUndoesParse | teonet/teonet/packet.c:32-87 | every packet that parses is what its fields create |
| TeoPacket.L0Parse | teonet/teonet/l0_send.go:34-53 | reading one field after the other gives the fields at their places, and zeros for what is missing |
| TeoPacket.L0ParseUndoesCreate | teonet/teonet/l0_send.go:22-53 | name, command and data come back exactly for names of at most 254 bytes and data of at most 65535 |
| Base64.Encode | teonet/teonet/base64.c:48-78 | the loop stores the encoding, of length 4*ceil(n/3), and a zero byte |
| Base64.Decode | teonet/teonet/base64.c:89-123 | the loop stores the decoding, in 32-bit arithmetic on whatever the table holds; a length that is no multiple of 4 gives nothing |
| Base64.DecodeUndoesEncode | teonet/teonet/base64.c:48-123 | every non-empty byte string comes back, whatever the decoding table holds outside the alphabet |
| Base64.AlphabetIsStandard | teonet/teonet/base64.c:13-20 | the letters in their order (section 4 of RFC 4648) |
| Base64.FourLetters | teonet/teonet/base64.c:60-71 | which bits of three bytes go into which letter |
| Base64.PaddingStandsAtTheEnd | teonet/teonet/base64.c:73-75 | letters of the alphabet, then two, one or no padding characters as the length asks (section 4 of RFC 4648) |
| TeocdbIds.Teocdb.GetID | services/teocdb/teocdb.go:221-258 | with other clients between all its queries, any of which may fail with or without effect, a call is a run of the queries; it returns a number exactly if its own compare-and-set took one, and that one, and an error only for a query that failed |
| TeocdbIds.AloneGets | services/teocdb/teocdb.go:221-258 | a client that is alone gets the counter's value, at the second try at the latest |
| TeocdbIds.UpdatesAreConsecutive | services/teocdb/teocdb.go:221-258 | under every interleaving on a counter that exists, whatever older values replicas still have, the applied updates stand for consecutive numbers from its value on, and those returned increase |
| TeocdbIds.TriesAreBounded | services/teocdb/teocdb.go:240-253 | on such a counter a call fails at most once more often than others succeed meanwhile |
| TeocdbIds.MissedCounterCollides | services/teocdb/teocdb.go:224-238 | two clients whose selects find no counter are both given 1 |
| TeocdbIds.OneMissIsEnough | services/teocdb/teocdb.go:224-238 | so are two of which one asks a replica that has not got a new counter yet |
| TeocdbIds.IdsAreDistinctIff | services/teocdb/teocdb.go:221-258 | all interleavings give distinct numbers exactly if the counter exists and no replica is so old that it does not have it |
| TeocdbQueue.Teocdb.SetQueue | services/teocdb/teocdb.go:267-270 | adds one unlocked record with the data, last |
| TeocdbQueue.Teocdb.GetQueue | services/teocdb/teocdb.go:273-297 | with other clients between all its queries, any of which may fail with or without effect, a call is a run of the queries; it returns a value exactly if it was given one, of a record it locked and deleted, an error only for a query that failed, and nothing only when its select found nothing |
| TeocdbQueue.AloneGets | services/teocdb/teocdb.go:273-297 | a client that is alone gets the record it selects, and nothing else changes |
| TeocdbQueue.EachRecordGoesOnce | services/teocdb/teocdb.go:267-297 | under every interleaving, with outdated selects, a record is in exactly one place: unlocked, held by one call, returned once, or left by a failed call; what is returned is what was put |
| TeocdbQueue.CountsAddUp | services/teocdb/teocdb.go:267-297 | records put = unlocked + held + returned + left by failed calls |
| TeocdbQueue.NothingIsLostIff | services/teocdb/teocdb.go:281-296 | no record is left behind exactly if no lock that took effect and no deletion is reported as an error |

## Left out

- Real time, trip-time averages and speed counters: the clock, what is due and the counted
  speeds are arguments of a tick.
- That a packet is resent in a given tick: the scan stops at the first entry that is not
  due, and a resent entry keeps its place. Liveness of the network is not modelled.
- Kernel.ChannelData.Destroy: a send to a full event channel waits until the user reads.
  That the user does is assumed: a kernel that waits for ever takes no more steps.
- Kernel.ChannelData.Process: the kernel is taken for the only sender of events. One more
  comes from the goroutine that `Init` starts (`trudp/trudp/trudp.go:232`), and takes one of
  the 14 places left.
- The channel map: a run ends when its channel is destroyed. That another channel with the
  same key is made afterwards is not modelled, nor the test in the user's goroutine by which
  a write to a destroyed channel fails; a write that got past it is (`LateWriteIsSentOnce`).
- Ping payloads, the timestamps of packets in a session, and test traffic
  (`trudp/trudp/channel.go:295-300`), which passes by the flow control.
- Kernel.ChannelData.SendKept: the send list is a sequence of entry objects, not linked
  cells; the receive queue keeps payloads, not packet objects, and C memory is not modelled.
- TrudpHeader.CreateNew: a payload length is cut to 16 bits by the builders, and to 12 by
  the header; memory that cannot be allocated is not modelled.
- L0Stream.TeoLNull.PacketCheck: buffers are values, so that a caller who reuses the memory
  of a chunk and thereby changes the read buffer is not modelled; the same for the slices
  handed on.
- TCP connections, which send an L0 packet in one write; login, echo and the handling of
  packets once they are handed on.
- SplitRuns.CombineUndoesSplit: fragments are told apart by a 16-bit packet number. That a
  sender uses a number again after 65536 messages, while old fragments wait, is a foreign
  message by assumption.
- TeoPacket.L0Parse: a name length of zero makes the code slice out of range; the model
  returns that as a result. A command and its data are not interpreted.
- Base64.Decode: of an empty string the code reads the two bytes in front of it, which are an
  argument here; memory that cannot be allocated is modelled only for the length that wraps
  around in that case.
- TeocdbIds.UpdatesAreConsecutive: `next_id` is unbounded here and 32 bits wide in the
  database; SetID and DeleteID during the run are excluded, as they change the counter.
- TeocdbQueue.Teocdb.GetQueue: a select that fails is not told from one that finds nothing;
  both end the call without a value and without effect.
- The database itself, beyond queries that happen one after the other and an atomic
  compare-and-set; the queue's order, which is by time and is not promised by `LIMIT 1` on
  an outdated replica.
- Sockets, encryption, peers, rooms, plugins, statistics, terminal, logging and
  configuration.
