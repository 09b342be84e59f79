# A model of the Air transport

The repository's radio receiver streams encoded audio to a headset over a 5 ms frame timeline that it runs beside the
stock Bluetooth controller. This project models the receiver's real-time core and the hand-offs that feed it, and proves
what they keep over whole runs:

- **Trial scheduler** (`PacketCache`, `Trial`, `TrialPeer`, `TrialEnd`, `TrialStop`, `TrialDriver`, `TrialRequest`): the timeline with its skip loop, retries and three packet
  caches. Reusing a cached packet is proved to be the same as building it now; no frame
  goes on air twice, although the radio can report a sent frame as cancelled with no packet counted.
- **Owned radio event** (`RadioTx`, `RadioDriver`): up to three programs in the controller's ring, with borrowed control
  structures, descriptors, register bits and a payload buffer. The controller around the driver is adversarial: callbacks in any
  order, foreign ring entries, another owner of the arbiter's slot, hardware writes to what is borrowed.
- **Repeat policy** (`RetryPolicy`, `RetryDriver`): automatic repeats with warm-up, cooldown and block.
- **Audio hand-off** (`AudioQueue`, `CodecLink`, `Reconnect`, `TrialPump`, `SlotPool`): the lock-free queue, the pipelined codec
  link, the reconnect barrier, the timer pump and the controller's message slots, each as an interleaving of atomic steps.
- **Link protocols** (`ParentAck`, `AirFeedback`): one-bit acknowledgement and four-bit sequence prediction against a peer on a
  lossy link.
- **Arithmetic and coding** (`AirFrame`, `AirSession`, `PhyPacket`, `ChannelSelection`, `Resampler`): framing, clock grid, CRC-24
  and whitening, channel selection #2, and the half-band interpolator.

Each protocol is a state machine over explicit steps, with unbounded counters beside the wrapping ones. Where the program
updates a record in place, a class does the same and each of its methods is proved to make exactly the state machine's step, so what is
proved over runs holds for the methods. Integer widths, wrap-around and truncation are written out. The configuration is the
one that is built: live USB audio, empty bootstrap, parent poll, receive diagnostic 4, no unconditional repeat.

Some promises turned out to hold only under a condition. The code is modelled as it is, the condition is proved exact, and concrete cases show
the failures:

- Sequence prediction (`AirFeedback`): a reply accepted 3 ms or later after the start of the frame that is the first to report that frame's advance
  makes the sender one ahead in the next frame.
- Sending once (`Trial`, `RadioTx`): a frame that was sent can be reported as cancelled with no packet counted, so only the test of its start against the
  28-bit clock keeps it from being sent again. That holds exactly while such an event is collected less than 2^28 - 3200 ticks (about 23 hours) after its start.
- Frame counters (`Trial`, `TrialStop`): frames passed plus cancelled reports equal frames submitted plus skipped exactly until a cancelled report ends the
  trial or comes with counted packets; stopping a trial in flight does the former.
- Collection of a radio event (`RadioTx`): for an event with an ordinary later receive window, collection leaves a ring entry of the driver behind
  exactly when that window was queued and the entry at the first program's position is still that program's; a comment in the code relies on the ROM
  to retire it when the callback returns.
- Cooldown (`RetryPolicy`): the clock is cut to milliseconds, so 250 measured ones are only more than 249 real ones; they are 250 real ones exactly when
  the whole milliseconds differ by more than 250 or the cut-off part at the end is not below the one at the start.
- Codec link (`CodecLink`): the codec board takes a new request for a repetition exactly when a multiple of 2^32 requests lies between.

## Model

| member | source | states |
|---|---|---|
| ParentAck.Detached.Receive | firmware/radio/src/parent_ack.c:7-48 | the in-place record makes exactly the transition of the acknowledgement machine, with every counter |
| ParentAck.Detached.ReceiveControl | firmware/radio/src/raw_llcp.c:334-357 | the detached branch: limits on the control, the transition, and the one key of a newly accepted wheel, media or microphone message |
| ParentAck.KeyIsPressed | firmware/radio/src/raw_llcp.c:345-356 | a control gives a key exactly when it is the message that the headset sends for that key |
| ParentAck.KindsAre | firmware/radio/src/parent_ack.c:9-15 | which messages count as each kind, written out byte by byte |
| ParentAck.HeaderReads | firmware/radio/src/parent_ack.c:4-6 | the header sent is an empty PDU's with the record's two bits, and none before it is active |
| ParentAck.BootstrapKeeps | firmware/radio/src/parent_ack.c:17-29 | the reply that activates the record puts its two bits in step with the peer |
| ParentAck.RxKeeps | firmware/radio/src/parent_ack.c:37-46 | the expected bit stays the SN of the next undelivered PDU while the peer is at most one behind |
| ParentAck.TxKeeps | firmware/radio/src/parent_ack.c:36 | the sent bit stays in step with what the peer has taken |
| ParentAck.ExactlyOnce | firmware/radio/src/parent_ack.c:7-48 | after bootstrap, under any loss, repetition and refusal, the counted PDUs are exactly the peer's from the first on, in order, each once, and the enqueued keys are exactly theirs |
| ParentAck.FreshReplyIsDelivered | firmware/radio/src/parent_ack.c:37-47 | a first transmission that answers the header on air is delivered, with its key |
| AirFrame.ChecksumChains | firmware/radio/src/air_frame.c:4-13 | continuing the CRC-32 over two pieces is the CRC-32 of their concatenation |
| AirFrame.CrcContinueLoop | firmware/radio/src/air_frame.c:4-13 | the bit loop computes that checksum |
| AirFrame.CheckValue | firmware/radio/src/air_frame.c:4-13 | the digits 1 to 9 give 0xcbf43926, the check value of CRC-32 |
| AirFrame.ChecksumIs | firmware/radio/src/air_frame.c:69-71 | a record's checksum is the CRC-32 of payload then header in one run, whose register starts at 255 less the stream number |
| AirFrame.LowBytesAre | firmware/radio/src/air_frame.c:77-78 | a record ends with the checksum's lower sixteen bits, least significant byte first |
| AirFrame.CheckDownlink | firmware/radio/src/air_frame.c:34-60 | the checking loop accepts exactly the valid record lists and finds selector, length and stream mask |
| AirFrame.DownlinkBuild | firmware/radio/src/air_frame.c:29-83 | each error exactly when it applies, the bytes written otherwise, and nothing outside them changed |
| AirFrame.DownlinkRoundTrip | firmware/radio/src/air_frame.c:29-83 | an independent reader recovers flags and records from bytes, mask and size table, and every chained checksum matches |
| AirFrame.UplinkParse | firmware/radio/src/air_frame.c:85-134 | the parser in place: the records, the control tail, or the error |
| AirFrame.UplinkAcceptsExactly | firmware/radio/src/air_frame.c:85-134 | the parser accepts exactly what a serializer of records and an optional control tail produces, up to six unused bits, and returns what was serialized |
| AirSession.BuildPlan | firmware/radio/src/air_session.c:25-87 | the plan or its error for every proposal, reply, anchor and seed |
| AirSession.MapBitIs | firmware/radio/src/air_session.c:46-49 | a channel's bit is that of its weight in the map's byte, counted from the least significant one |
| AirSession.WriteE2 | firmware/radio/src/air_session.c:61-84 | the 68 message bytes field by field |
| AirSession.E2Copies | firmware/radio/src/air_session.c:61-84 | the message repeats the proposal's instant and the seed's map, vector and key where the reader expects them |
| AirSession.SamePlanIffSameGrid | firmware/radio/src/raw_llcp.c:147-166 | two plans from one proposal, seed and offset are equal exactly when the anchors lie on one 96-tick grid consistent with their event counters |
| AirSession.JoinIsOnTimeline | firmware/radio/src/raw_llcp.c:201-214 | an accepted join starts stream 2 exactly at the session time of its frame index, at most 400 frames on |
| AirSession.JoinOnGrid | firmware/radio/src/raw_llcp.c:180-214 | with anchors on one grid, for any number of events between: accepted exactly when 96 times the events, modulo 2^28, is positive and at most 6400; it then lies six frames per event after stream 1 less the clock's turns, a multiple of six exactly when the turns are a multiple of three; within a million events, accepted exactly for 1 to 66 of them |
| AirSession.SlotIsUnique | firmware/radio/src/air_feedback.c:26-31 | the slot check accepts any clock value for exactly one frame index modulo 2^24 |
| AirFeedback.Record.Commit | firmware/radio/src/air_feedback.c:46-61 | the commit loop updates a copy exactly as the record rules say, or fails |
| AirFeedback.Record.Accept | firmware/radio/src/air_feedback.c:11-78 | every refusal leaves the record, an accepted packet commits all its records and hands out control and microphone frames |
| AirFeedback.Record.Note | firmware/radio/src/air_feedback.c:99-111 | marks exactly the channels whose new expectation is this transmission's successor |
| AirFeedback.Record.Sequences | firmware/radio/src/air_feedback.c:113-132 | the predicted sequences and acknowledgements |
| AirFeedback.CommitIsForward | firmware/radio/src/air_feedback.c:48-61 | a commit never takes a channel back to an earlier frame |
| AirFeedback.AcceptedIff | firmware/radio/src/air_feedback.c:17-63 | a packet is accepted exactly when it belongs to the session, came whole, without error and in its frame, opens, parses, and carries records of the two streams and a control that fits |
| AirFeedback.MicrophoneIs | firmware/radio/src/air_feedback.c:74-76 | the microphone frames handed out are exactly the 40-byte records of stream 1 |
| AirFeedback.AcceptedCommits | firmware/radio/src/air_feedback.c:44-78 | an accepted packet commits to each stream exactly the records it carries for it, in order |
| AirFeedback.AcknowledgesHeard | firmware/radio/src/air_feedback.c:50-56 | what is sent afterwards acknowledges the last record heard: the sequence after its own, or zero when it starts over |
| AirFeedback.NothingToAcknowledge | firmware/radio/src/air_feedback.c:122-124 | before anything of a stream was heard since its start, zero is sent |
| AirFeedback.RepliesAre | firmware/radio/src/air_feedback.c:99-111 | replies of the peer machine one after the other are the packet's commits and one transmit note |
| AirFeedback.NeverDrifts | firmware/radio/src/air_feedback.c:113-132 | from sync, under any loss, skip and acknowledgement in either window, every next frame is predicted at the value the peer will expect, while replies are timely |
| AirFeedback.TransmissionIsExpected | firmware/radio/src/air_feedback.c:117-132 | a transmission in sync carries the sequence the peer expects |
| AirFeedback.DriftsExactlyWhenLate | firmware/radio/src/tone_trial.c:930-938 | after a reply the next prediction is right if and only if the reply was timely |
| AirFeedback.LateReplyDrifts | firmware/radio/src/tone_trial.c:933-938 | a concrete late reply after which the sender is one ahead |
| ChannelSelection.EventPrnBijective | firmware/radio/src/tone_packet.c:41-62 | for a fixed identifier event counters and event numbers correspond one to one (section 4.5.8.3 of Bluetooth Core Vol 6 Part B) |
| ChannelSelection.SelectChannel | firmware/radio/src/tone_packet.c:47-85 | the loops compute the channel, or refuse a bad map or subevent |
| ChannelSelection.ResultIsUsed | firmware/radio/src/tone_packet.c:55-83 | every result is a used channel |
| ChannelSelection.SubeventsSpread | firmware/radio/src/tone_packet.c:71-82 | consecutive subevents are at least the distance apart, counted around the used channels |
| ChannelSelection.ChannelsSpread | firmware/radio/src/tone_packet.c:71-84 | the selected channels of consecutive subevents are that far apart in the list of used channels |
| ChannelSelection.NextCovers | firmware/radio/src/tone_packet.c:78-82 | every used channel at least that far away follows for some pseudo-random number |
| ChannelSelection.DistanceIs | firmware/radio/src/tone_packet.c:71-77 | the distance for every number of used channels: 1 to 6, 7, 8 to 17, 18 to 31 and above |
| ChannelSelection.EventChannel | firmware/radio/src/tone_packet.c:64-69 | the event's channel under any map: its number modulo 37 when used, otherwise the used channel at the number's share |
| ChannelSelection.FullMapChannel | firmware/radio/src/tone_packet.c:64-67 | with all channels used the channel is the event number modulo 37 |
| ChannelSelection.FullMapSpread | firmware/radio/src/tone_packet.c:55-83 | with all channels used, any 65536 consecutive counters select channels 0 to 8 exactly 1772 times and the others 1771 times, for every access address |
| ChannelSelection.SampleData | firmware/radio/src/tone_packet.c:41-85 | event number and channels of three subevents as in the standard's sample data (section 3 of Bluetooth Core Vol 6 Part C) |
| PhyPacket.RegisterFollowsRecurrence | firmware/radio/src/phy_packet.c:60-68 | the shift register produces the sequence of x^7 + x^4 + 1 |
| PhyPacket.WhitenTwice | firmware/radio/src/phy_packet.c:59-69 | whitening is its own inverse (section 3.2 of Bluetooth Core Vol 6 Part B) |
| PhyPacket.WhitenedBits | firmware/radio/src/phy_packet.c:61-69 | the bytewise exclusive-or whitens the bits in sending order |
| PhyPacket.OuterWhitening | firmware/radio/src/phy_packet.c:6-20 | in place from the state after two header bytes, or no change |
| PhyPacket.WordStepFollows | firmware/radio/src/phy_packet.c:48-55 | the masked 32-bit word steps as the 24-position register |
| PhyPacket.CrcBytesAreRegister | firmware/radio/src/phy_packet.c:22-27 | the reversed bytes send register positions 23 down to 0 |
| PhyPacket.RegisterIsRemainder | firmware/radio/src/phy_packet.c:46-55 | the register is the remainder of the bits, with the initial register above them, divided by the generator polynomial |
| PhyPacket.ResidueIsZero | firmware/radio/src/phy_packet.c:46-57 | exactly the register's own bits bring the register to zero |
| PhyPacket.BurstChangesRegister | firmware/radio/src/phy_packet.c:46-55 | a burst of at most 24 bits changes the final register, wherever it lies |
| PhyPacket.ReceiverAccepts | firmware/radio/src/phy_packet.c:46-69 | a receiver gets the PDU back and ends in zero, for every PDU, seed and channel |
| PhyPacket.ReceiverRejectsBurst | firmware/radio/src/phy_packet.c:46-69 | a packet changed on air by a nonzero burst of at most 24 bits never ends in zero |
| PhyPacket.PacketBuild | firmware/radio/src/phy_packet.c:29-73 | the whole packet on air, also when PDU and output share a buffer; a refusal changes nothing |
| PhyPacket.InnerPacketOnAir | firmware/radio/src/radio_tx.c:861-880 | hardware whitening puts the pre-whitened inner packet on air unchanged |
| PhyPacket.DtmStart | firmware/radio/src/phy_packet.c:75-87 | the outer start plus the time of what precedes the inner packet is the inner start |
| PhyPacket.EmbedPdu | firmware/radio/src/radio_tx.c:861-880 | building, start shift and outer whitening together give that air image and start |
| PacketCache.ParentUnused | firmware/radio/src/tone_trial.c:584-616 | without poll or acknowledgement the parent's packet does not change the build |
| PacketCache.FreshShape | firmware/radio/src/tone_trial.c:584-646 | header bits, length by streams, audio and trailer, and the marks of whatever a build returns |
| PacketCache.FreshIff | firmware/radio/src/tone_trial.c:580-620 | a build succeeds exactly for one or two streams of an announced session whose map gives a channel, when the parent's packet fits |
| PacketCache.FreshCarries | firmware/radio/src/tone_packet.c:129-184 | the sealed bytes hold the frame's records, which an independent reader gets back, then the parent's packet, on a used channel |
| PacketCache.RecordsSay | firmware/radio/src/tone_packet.c:129-150 | those records: one for each stream of the mask, with that stream's sequence, acknowledgement and side of the audio |
| PacketCache.FreshStarts | firmware/radio/src/tone_trial.c:621-639 | a packet starts at its frame's session time, polls and receptions by their fixed shift later |
| PacketCache.BuildCarries | firmware/radio/src/tone_trial.c:596-646 | for the first stream alone a packet has no audio and the queue is not asked; for both it has the audio the queue selects for that event, now or before |
| PacketCache.BuildKeeps | firmware/radio/src/tone_trial.c:580-651 | every build, successful or not, keeps all cache entries equal to fresh builds |
| PacketCache.MatchIsFresh | firmware/radio/src/tone_trial.c:653-660 | an entry that matches is what a build would give now, and the build would not move the audio queue |
| PacketCache.PrepareIsFresh | firmware/radio/src/tone_trial.c:668-713 | whichever cache answers, packet, header, channel, start, success and audio queue equal a fresh build's |
| PacketCache.PreparedIsFreshNow | firmware/radio/src/tone_trial.c:668-713 | once prepared, building again gives the same and moves nothing |
| PacketCache.GuessKeeps | firmware/radio/src/tone_trial.c:714-745 | guesses leave the prepared packet and the queue alone and stay right |
| Trial.PrepareKeeps | firmware/radio/src/tone_trial.c:668-713 | preparing any frame the scheduler may ask for keeps caches and audio in agreement and never asks in vain |
| Trial.FollowingKeeps | firmware/radio/src/tone_trial.c:1099-1104 | preparing the next frame leaves the packet in flight alone, and that frame's audio can still be asked for |
| Trial.SeekKeeps | firmware/radio/src/tone_trial.c:984-1014 | however many frames are skipped, the one found is prepared, in reach and not yet on air |
| Trial.InReachIsFound | firmware/radio/src/tone_trial.c:984-1012 | a frame that can be prepared and is in reach before and after that is not skipped |
| Trial.PlannedIsStart | firmware/radio/src/tone_trial.c:990-995 | the start judged before a frame is built is its packet's, polls excepted |
| Trial.StepKeeps | firmware/radio/src/tone_trial.c:845-1106 | the whole step keeps the invariant, when an event that was on air is collected in time |
| Trial.EveryRun | firmware/radio/src/tone_trial.c:865-1105 | over every run that collects events on air in time, no frame is on air twice and their order increases, whatever they are reported as; next plus all cancelled reports equals submitted plus skipped up to the reports that ended the trial or counted packets, so exactly while there are none; no audio request is ever refused |
| Trial.FlightIsPrepared | firmware/radio/src/tone_trial.c:891-893 | at collection the cache side of the active frame still holds what was submitted, and the requested start is that packet's |
| Trial.RetriedIff | firmware/radio/src/tone_trial.c:967-974 | a frame that is tried again was not on air; less than a turn of the clock from its start it is tried again exactly when its event was cancelled without counted packets and the start, in true time, is still minimum + 1 to 3200 ticks ahead |
| Trial.LateCollectionRepeats | firmware/radio/src/tone_trial.c:970-974 | collected later than that, a frame that was on air is sent again |
| TrialStop.StoppedRunMiscounts | firmware/radio/src/tone_trial.c:888-889 | a concrete run: one frame submitted, stopped in flight and reported as cancelled leaves frames passed plus cancelled reports above submissions plus skips |
| Trial.FoundIsFresh | firmware/radio/src/tone_trial.c:984-1021 | the packet found for submission is a fresh build from the feedback, parent packet and audio of that moment |
| Trial.SlotsSpread | firmware/radio/src/tone_packet.c:159-163 | a packet's channel is the distance away from its event's own channel, and its later reply's channel the distance away from the packet's, under any map |
| Trial.FullMapSlots | firmware/radio/src/tone_trial.c:1042-1045 | with all channels used both are at least eleven channels apart, the first one from the event's number modulo 37 |
| TrialPeer.HearFollows | firmware/radio/src/tone_trial.c:907-944 | one snapshot changes each stream's record exactly as the peer's replies in it do, early ones by the 3 ms test with the transmit note |
| TrialPeer.NextKeeps | firmware/radio/src/tone_trial.c:845-1106 | every move of the scheduler beside a peer keeps that stream's record and the peer in sync |
| TrialPeer.PacketsAreExpected | firmware/radio/src/tone_trial.c:845-1106 | over every run with fair peers, skipped, refused, cancelled and retried frames included: the packet in flight carries for each stream it sends the sequence the peer expected when the frame began |
| TrialPeer.CollectedPredicts | firmware/radio/src/tone_trial.c:907-944 | and after every collected event both streams are predicted for the next frame at what their peers will expect |
| TrialEnd.EndsMean | firmware/radio/src/tone_trial.c:853-1019 | in every run a finished trial has passed every frame and joined the second stream, a cancelled one was asked to stop, any other end has a reason |
| TrialEnd.StopsAtOnce | firmware/radio/src/tone_trial.c:857-889 | asked to stop, the trial ends in the next step that does not find its event still in flight, and submits nothing more |
| TrialEnd.JoinSteps | firmware/radio/src/tone_trial.c:808-840 | the second stream is requested, committed and confirmed in this order, each exactly when its condition holds |
| TrialEnd.SubmitMeans | firmware/radio/src/tone_trial.c:1042-1098 | what the driver's answer does to the trial: in flight, passed over, or failed |
| TrialEnd.TrailersApart | firmware/radio/src/tone_trial.c:676-677 | control trailers of stereo frames lie a multiple of six frames after the second stream's start, and are carried there when the parent has one |
| TrialDriver.Scheduler.Choose | firmware/radio/src/tone_trial.c:698-712 | the in-place lookup is that preparation |
| TrialDriver.Scheduler.SeekFrame | firmware/radio/src/tone_trial.c:984-1014 | the skip loop is that search |
| TrialDriver.Scheduler.TrialStep | firmware/radio/src/tone_trial.c:845-1106 | the in-place step is that step |
| TrialRequest.StereoShape | firmware/radio/src/tone_trial.c:94-103 | stereo audio that is sent always has one of the two shapes that may be repeated |
| TrialRequest.NeverInvalid | firmware/radio/src/tone_trial.c:1036-1045 | the driver's argument check accepts every request the scheduler can make, and the fallback of every repeat |
| TrialRequest.EligibleIsRepeatable | firmware/radio/src/radio_tx.c:641-650 | an eligible frame meets all conditions on a repeat |
| RadioTx.CalibrationStays | firmware/radio/src/radio_tx.c:694-760 | configuring a program keeps every field that is not set |
| RadioTx.SubmittedReads | firmware/radio/src/radio_tx.c:629-859 | an accepted submission read back: address, checksum start, rates, channels, windows, labels and descriptors of every structure, payload, start and context of every program, a start in time, and what is not needed left alone |
| RadioTx.StartedReads | firmware/radio/src/radio_tx.c:518-627 | after a start that succeeds: format and antennas of every program, their places in the ring in order, test mode off, the transmit path shifted exactly when needed |
| RadioTx.StartsIff | firmware/radio/src/radio_tx.c:518-627 | an event starts exactly with slot and activities its own, an empty ring, the radio out of test mode, the transmit path at its known value when it is to be shifted, and known antennas |
| RadioTx.ProgramsApart | firmware/radio/src/radio_tx.c:636-652 | the programs of a request that is accepted do not meet on air: 300 microseconds or more after each packet's end |
| RadioTx.LaterWindowReads | firmware/radio/src/radio_tx.c:369-408 | over every run from a submission: when the later window is queued, the structure listens with that request's channel, rate and window and is otherwise as it was, and the program starts the requested delay after the first |
| RadioTx.LaterQueuedIff | firmware/radio/src/radio_tx.c:369-408 | the later window is queued exactly when activity, arbiter and ring are free for it, it lies in reach, and the arbiter takes it; otherwise the status says why |
| RadioTx.LaterStarts | firmware/radio/src/radio_tx.c:685-812 | the later program and the stopper start their delay after the first, across the clock's wrap |
| RadioTx.AbortKeeps | firmware/radio/src/radio_tx.c:296-317 | an abort keeps every borrowed thing accounted for |
| RadioTx.PushAllKeeps | firmware/radio/src/radio_tx.c:595-623 | after any prefix of the pushes every entry of ours is recorded |
| RadioTx.StartedKeeps | firmware/radio/src/radio_tx.c:518-627 | the start callback in any state |
| RadioTx.FollowupKeeps | firmware/radio/src/radio_tx.c:369-408 | queueing the later window |
| RadioTx.FrameDoneKeeps | firmware/radio/src/radio_tx.c:409-504 | a program callback with any context, time and reason |
| RadioTx.CallbackIsChecked | firmware/radio/src/radio_tx.c:409-437 | a callback that names no program of the event with its start and entry, or ends one before an earlier one, is a fault and changes nothing else; a repeated end changes nothing |
| RadioTx.ReceptionIsNoted | firmware/radio/src/radio_tx.c:443-483 | a reception's findings are kept: invalid ones of every program, complete ones of all but the stopper |
| RadioTx.EndIsMarked | firmware/radio/src/radio_tx.c:475-492 | one of several programs ends: it alone is marked, and the event ends with the last |
| RadioTx.CompleteReplyStops | firmware/radio/src/radio_tx.c:443-472 | a packet received stops a running event early exactly when the reply is complete and valid and its window is one that ends with it |
| RadioTx.LaterOutcome | firmware/radio/src/radio_tx.c:475-496 | the end of the reply's program or of the later window leaves whether it ended normally |
| RadioTx.StepKeeps | firmware/radio/src/radio_tx.c:296-968 | every call, callback and move of the controller keeps the invariant |
| RadioTx.CollectReclaims | firmware/radio/src/radio_tx.c:913-968 | when collect returns 1, cells and register bits are what they would be without the driver, the buffer went back exactly once, alarm and arbiter are released, and only orphaned entries can remain |
| RadioTx.EndedIsCollectable | firmware/radio/src/radio_tx.c:941-967 | a cancelled event can be collected at once, an ended one as soon as its entries are retired |
| RadioTx.EveryCollectionReclaims | firmware/radio/src/radio_tx.c:913-968 | the same at the end of every run from a fresh controller |
| RadioTx.RefusalReclaims | firmware/radio/src/radio_tx.c:852-858 | a conflict has restored everything and freed the buffer; every other refusal changed nothing |
| RadioTx.AbortOnlyOwn | firmware/radio/src/radio_tx.c:304-316 | the abort bit is raised only while the arbiter's slot and the current ring entry are ours |
| RadioTx.RunningIsAborted | firmware/radio/src/radio_tx.c:296-317 | at its deadline, when its slot is taken back, or cancelled: a running event whose program is current is told to abort, one whose program is not becomes a fault untouched |
| RadioTx.StopperIsAborted | firmware/radio/src/radio_tx.c:925-940 | the stopper alone left and executing is aborted once, from 20 microseconds after its start on, across the clock's wrap |
| RadioTx.CancelIs | firmware/radio/src/radio_tx.c:882-911 | a cancel gives up the later window, cancels a queued event when the arbiter lets go of it, and lets a started repeat go on unless its entries are not in order |
| RadioTx.CollectCodes | firmware/radio/src/radio_tx.c:913-968 | what a collection answers: 0 while anything is under way or an entry in use, a fault over foreign entries or events, otherwise 1 |
| RadioTx.EventIsCleanIff | firmware/radio/src/radio_tx.c:365-408 | for one ordinary event from a fresh controller, a successful collection leaves no entry of ours exactly when the later window was never queued or the entry at the position recorded for the first program is no longer that program's |
| RadioTx.PromptCollectionIsClean | firmware/radio/src/radio_tx.c:365-408 | with a ROM that retires an entry when its end callback returns, no entry of ours is left |
| RadioTx.LateRetirementLeavesEntry | firmware/radio/src/radio_tx.c:404-406 | a concrete run without that in which collect returns 1 over a used entry of ours |
| RadioTx.SentCanBeCancelled | firmware/radio/src/radio_tx.c:401-514 | a concrete run from a fresh controller in which an event whose first program completed is reported as cancelled, and collected |
| RadioDriver.Transmitter.TxReleaseStorage | firmware/radio/src/radio_tx.c:161-174 | in place: exactly the borrowed parts come back |
| RadioDriver.Transmitter.TxSubmit | firmware/radio/src/radio_tx.c:629-859 | in place: the submission step and its status |
| RadioDriver.Transmitter.TxStarted | firmware/radio/src/radio_tx.c:518-627 | in place: the start step |
| RadioDriver.Transmitter.TxFrameDone | firmware/radio/src/radio_tx.c:409-504 | in place: the program callback's step |
| RadioDriver.Transmitter.TxCancel | firmware/radio/src/radio_tx.c:882-912 | in place: the cancel step |
| RadioDriver.Transmitter.TxCollect | firmware/radio/src/radio_tx.c:913-968 | in place: the collection step and its code |
| RetryPolicy.StepKeeps | firmware/radio/src/tone_trial.c:149-294 | the right to repeat, the cooldown and the block agree with the history |
| RetryPolicy.CooldownBeginsIff | firmware/radio/src/tone_trial.c:172-289 | the cooldown begins, with the clock read anew and no completion counted, exactly when an automatic repeat meets a conflict, an expired deadline or a skip right after it, or the armed probe fires; never while it lasts |
| RetryPolicy.NoRepeatWhileCooling | firmware/radio/src/tone_trial.c:177-199 | then none is taken before 50 ordinary stereo completions in a row without a skip and more than 249 ms, and at least 250 ms exactly when the span is full; after another failure none in that session |
| RetryPolicy.NoRepeatBeforeWarm | firmware/radio/src/tone_trial.c:190-194 | in every run an automatic repeat is taken only from frame 1000 on and after 1000 changes of the eligible frame since the session began or a frame was passed over outside repeats and cooldown |
| RetryPolicy.SessionsAreApart | firmware/radio/src/tone_trial.c:535-547 | the end of a session blocks automatic repeats and frees the right; a new session starts without block, cooldown and warm-up |
| RetryPolicy.SubmissionAnswers | firmware/radio/src/tone_trial.c:397-422 | a submission succeeds exactly when the first try does or an automatic repeat conflicts and its ordinary shape succeeds; only the first counts as a repeat |
| RetryPolicy.BurstIsBounded | firmware/radio/src/tone_trial.c:217-253 | a burst is armed once with the right free, and takes at most 24000 frames within 125 seconds |
| RetryPolicy.MeasuredIsReal | firmware/radio/src/tone_trial.c:188-189 | 250 milliseconds by the wrapping 32-bit difference are more than 249 real ones, and 250 real ones exactly when the whole milliseconds differ by more than 250 or the cut-off part at the end is not below the one at the start |
| RetryPolicy.CooldownMayBeShort | firmware/radio/src/tone_trial.c:172-189 | a concrete run from the start at whose end a repeat is taken 249.001 ms after the setback |
| RetryDriver.Repeats.Take | firmware/radio/src/tone_trial.c:177-199 | in place: the decision |
| RetryDriver.Repeats.Done | firmware/radio/src/tone_trial.c:254-275 | in place: the end of a repeat |
| RetryDriver.Repeats.Skip | firmware/radio/src/tone_trial.c:276-289 | in place: a skipped frame |
| RetryDriver.Repeats.SubmitWithFallback | firmware/radio/src/tone_trial.c:397-422 | in place: submission with the ordinary shape as fallback |
| RetryDriver.Repeats.FinishSession | firmware/radio/src/tone_trial.c:535-547 | in place: the end of a session |
| AudioQueue.StepKeeps | firmware/radio/src/audio_source.c:18-103 | every atomic access of producer and consumer keeps ring, latches, counters and the list in agreement |
| AudioQueue.NeverTorn | firmware/radio/src/audio_source.c:22-66 | no slot is written while it is read |
| AudioQueue.AnswersAreTheLists | firmware/radio/src/audio_source.c:31-68 | every finished selection answers as an unbounded first-in first-out list does |
| AudioQueue.SelectsInOrder | firmware/radio/src/audio_source.c:45-63 | that list hands out frames in push order, dropping exactly those of skipped events |
| AudioQueue.CountersBalance | firmware/radio/src/audio_source.c:48-66 | between calls read equals selected - underflows + discarded modulo 2^32 |
| AudioQueue.PushRefusedIffFull | firmware/radio/src/audio_source.c:22-24 | a push is refused exactly when all four slots are unreleased |
| AudioQueue.ReselectRepeats | firmware/radio/src/audio_source.c:36-39 | a selection keeps its answer while at most one newer event is selected, whatever arrives |
| AudioQueue.SampleIsExact | firmware/radio/src/audio_source.c:79-88 | a valid occupancy sample is exact, unless 2^32 frames are released meanwhile |
| AudioQueue.PushAloneIsItsSteps | firmware/radio/src/audio_source.c:18-29 | the whole push is its steps in a row |
| AudioQueue.SelectAloneIsItsSteps | firmware/radio/src/audio_source.c:31-68 | the whole selection is its steps in a row |
| AudioQueue.RearmAloneIsItsStep | firmware/radio/src/audio_source.c:91-103 | the whole rearm between operations is its step |
| AudioQueue.RearmStartsOver | firmware/radio/src/audio_source.c:91-103 | after any run a rearm drops and counts exactly what was not handed out, forgets every event, and the next selection is empty or the first frame pushed after it |
| AudioQueue.AudioSource.Push | firmware/radio/src/audio_source.c:18-29 | in place: memory and result of an uninterrupted push |
| AudioQueue.AudioSource.Select | firmware/radio/src/audio_source.c:31-68 | in place: memory and answer of an uninterrupted selection |
| AudioQueue.AudioSource.Stats | firmware/radio/src/audio_source.c:70-89 | counters, and the occupancy when it is at most four |
| AudioQueue.AudioSource.Rearm | firmware/radio/src/audio_source.c:91-103 | in place: rearming, refused unless paused |
| CodecLink.HearsKeeps | firmware/codec/src/main.c:76-101 | whatever the board hears, its answers stay the encoder's for their request |
| CodecLink.ExchangeKeeps | firmware/radio/src/pcm_stream.c:56-92 | one transfer, completed or not, keeps the log of pushes in order and the queue within four |
| CodecLink.EncodedOnceInOrder | firmware/radio/src/pcm_stream.c:75-148 | every encoded frame enters the queue at most once, in request order, is the encoder's output for that request's block, and always finds room |
| CodecLink.BelievedIsPushed | firmware/radio/src/pcm_stream.c:75-97 | a completed whole transfer with a frame for the previous request in the current session appends exactly that; anything else appends nothing |
| CodecLink.NothingIsLost | firmware/radio/src/pcm_stream.c:75-148 | from any link that is not ready, after two clean turns and while turns stay clean: every request to play has been encoded and its frame entered the queue, up to the latest request |
| CodecLink.TurnSends | firmware/radio/src/pcm_stream.c:118-141 | a turn sends the block it was given exactly when it may play and sees fewer than three frames |
| CodecLink.RepeatsIff | firmware/codec/src/main.c:84 | the board replays its cached answer exactly when session and 32-bit number coincide again |
| CodecLink.CodecBoard.Receive | firmware/codec/src/main.c:76-101 | in place: one received frame |
| CodecLink.SpiWorker.Turn | firmware/radio/src/pcm_stream.c:108-148 | in place: one turn of the worker loop |
| Reconnect.StepKeeps | firmware/radio/src/reconnect_barrier.h:7-12 | every load and store of the two flags |
| Reconnect.RearmOnlyWhileParked | firmware/radio/src/controller_diag.c:41-42 | while a rearm is carried out the worker is parked |
| Reconnect.AcknowledgementIsFresh | firmware/radio/src/pcm_stream.c:33-40 | an acknowledgement acted on answers the request of that round |
| Reconnect.EarlyReturnIsRefused | firmware/radio/src/pcm_stream.c:34-35 | a coordinator back before the worker left is refused |
| Reconnect.RoundCompletes | firmware/radio/src/pcm_stream.c:33-42 | an undisturbed round goes through: the worker parks, the queue is rearmed, and all three are back where they began |
| Reconnect.WaitingIs | firmware/radio/src/pcm_stream.c:36-39 | a worker with more to do stays in its cycle; a coordinator gives up only before the acknowledgement |
| Reconnect.UnorderedRearmOverlaps | firmware/radio/src/auto_link.c:306-309 | why the command must complete before the worker is let go |
| TrialPump.StepKeeps | firmware/radio/src/trial_pump.c:93-135 | every access of callback, completion and ends |
| TrialPump.OneOutstanding | firmware/radio/src/trial_pump.c:103-128 | at most one step command is outstanding |
| TrialPump.OneBeat | firmware/radio/src/trial_pump.c:103-135 | an undisturbed beat sends one command, further beats none before its completion, which restores the pump or, failing, stops it |
| TrialPump.RefusedBeat | firmware/radio/src/trial_pump.c:125-127 | a command that the controller does not take is withdrawn |
| TrialPump.BusyIs | firmware/radio/src/trial_pump.c:172-178 | the answer is whether the pump is active, a callback runs or a command is pending |
| TrialPump.IdleStaysIdle | firmware/radio/src/trial_pump.c:172-178 | after busy says no, none is outstanding and none is sent until the next start, whatever callbacks, completions, ends and further questions follow |
| TrialPump.PendingFirstIsWrong | firmware/radio/src/trial_pump.c:172-178 | with pending read first the answer can be wrong |
| SlotPool.ReservesIffRunExists | firmware/radio/src/llcp_pool.c:26-57 | a reservation succeeds exactly when a run of that many free slots exists, and takes the first one |
| SlotPool.SendSpends | firmware/radio/src/raw_llcp.c:576-621 | a message that fails in any way leaves all slots as they were; a sent one takes exactly its run |
| SlotPool.SlotsConserved | firmware/radio/src/raw_llcp.c:532-542 | over all runs the twenty slots stay partitioned; none is lost or freed twice |
| SlotPool.SlotList.Reserve | firmware/radio/src/llcp_pool.c:26-57 | in place: drain, search and give back |
| SlotPool.RawMessage.Hook | firmware/radio/src/raw_llcp.c:532-542 | in place: freeing the first slot frees the message's seven, each of them not free before |
| SlotPool.RawMessage.SendRaw | firmware/radio/src/raw_llcp.c:576-621 | in place: reservation, hand-over and every way back |
| Resampler.FoldedIsConvolution | firmware/codec/components/ull_pcm_codec/component/resample_2x.c:52-59 | the fifteen folded products are the 32-tap convolution |
| Resampler.AccumulatorBound | firmware/codec/components/ull_pcm_codec/component/resample_2x.c:29-30 | the accumulator stays below 77000 at every point of the loop, for every 16-bit history |
| Resampler.OutputAt | firmware/codec/components/ull_pcm_codec/component/resample_2x.c:43-64 | even outputs are the convolution at their sample, odd ones the sample fifteen before |
| Resampler.RoundsToNearest | firmware/codec/components/ull_pcm_codec/component/resample_2x.c:27-35 | the filtered output is the nearest sample to the exact sum, halves away from zero; clipped and counted exactly beyond a sample's range |
| Resampler.ChunksJoin | firmware/codec/components/ull_pcm_codec/component/resample_2x.c:40-65 | the chunking of the input does not matter |
| Resampler.SteadyIsKept | firmware/codec/components/ull_pcm_codec/component/resample_2x.c:8-25 | a steady input comes out unchanged in both phases |
| Resampler.StoreHolds | firmware/codec/components/ull_pcm_codec/component/resample_2x.c:44-52 | storing each sample twice keeps every window contiguous |
| Resampler.Interpolator.Process | firmware/codec/components/ull_pcm_codec/component/resample_2x.c:40-65 | in place: all outputs and clips of a chunk, silence for no input |

## Left out

- AES-CCM and LC3plus: arbitrary deterministic functions (`seal`, `open`, `Codec.encode`) stand for them.
- Memory orders: all atomic accesses are interleaved as if sequentially consistent; acquire and release are not told apart from stronger orders.
- ROM and SDK: program ring, arbiter, alarm, allocator and registers are an environment with the contract stated in `RadioTx`; addresses and ABI checks are not modelled.
- The payload bytes that `ull_radio_tx_submit` copies into the controller's buffer, durations, priorities and the diagnostic traces of a radio event.
- `firmware/radio/src/radio_tx.c` `first_alarm` (never set) and the sequence-flag bypass (not built).
- The E1/E2 transaction over Air in `raw_llcp.c`: an earlier empty poll can carry the same sequence bit as the pending message, so confirmation does not mean receipt.
- TrialPump and Reconnect are step machines on values only: every access to their atomic flags is an interleaving point, so there is no method to prove in one piece.
- The pump's trace buffer, USB, console, bootloader, GPIO and SPI driver calls, and observation-only counters.
- Tone trials without an audio source, the receive diagnostics other than 4, and the control-gap and sequence-control experiments, which are not built.
- The rearming of the trial record itself: a new session starts from a fresh record.
- The retry probe's own measurements; only its hold on the right to repeat is modelled.
- Microphone direction of the codec link (decoder reset, duplicate filtering, capture).
- A ROM that hands out an invalid message descriptor: the reservation stops and that descriptor is not given back.
- Float rounding in `resample_2x.c`: the taps are exact here and the arithmetic is exact.
- Trial.EveryRun: counters are unbounded here; in the program they are 32-bit words, which the frame limit keeps from wrapping unless a frame is cancelled without end. It has the requirement of StepKeeps in every step.
- TrialPeer.NextKeeps: requires fair peers (replies report what the peer expects, the first report of an advance in time), no snapshots of an event that never was on air, and a second stream that starts after the frames passed so far.
- Trial.StepKeeps: requires that an event on air is collected at or after its start and less than 2^28 - 3200 ticks later, which is a fact of radio and controller task; LateCollectionRepeats shows that the bound is needed.
- AudioQueue.SampleIsExact: the occupancy sample is wrong in principle if exactly 2^32 frames are released between its two reads.
- CodecLink.EncodedOnceInOrder: holds while fewer than 2^32 requests are sent since the last one the board worked on; RepeatsIff says exactly what happens otherwise.
- RetryPolicy.NoRepeatWhileCooling: 250 ms are not promised, because the program compares whole milliseconds; the contract says exactly when they hold.
- RadioTx.CollectReclaims: entries orphaned by the later window are excepted; PromptCollectionIsClean and EventIsCleanIff say when there are none.
