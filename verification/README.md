# Verified model of the HF radio core of an IRC server

The repository is an IRC server that reaches its users over amateur radio. Most of its difficult code is
the bundled ARDOP modem (`ext/ardop1`), a half-duplex ARQ protocol over a lossy radio link, and the
open-addressing dictionary of the server (`src/dict.cpp`). This project models that code in Dafny and
proves what it is for: bytes given to one station arrive at the other, in order and once; the transform
computes the discrete Fourier sum; codes and framings are undone by their readers; the dictionary is a
finite map.

Run `dafny verify dfyconfig.toml` in this directory to check everything.

## What is modelled

**The ARQ link.** `ArqStation.dfy` gives one station as a value (protocol state, substate, outbound queue,
frame in process, last sent / acknowledged / passed types, memory ARQ store, gears, repeat flags, timers)
and one function per branch of the code. `ArqLink.dfy` puts two such stations on the air and proves an
inductive invariant of the pair; `Delivery.dfy` draws from it what hosts can rely on, `Sessions.dfy` carries
that over any number of calls one after another, `Progress.dfy` proves that transfers get done,
`Resume.dfy` that one transfer follows another and that the link turns round, `Calls.dfy` that calls are answered and
disconnects end, all three however many frames are lost, `GearClimb.dfy` when the gears shift and where that leads,
`DeadPeer.dfy` and `Silence.dfy` that a station gives up on a silent peer, and with what left in its queue, and
`DiscLimit.dfy` what whole runs keep about timeouts and how many DISC frames they send.
`ArqClass.dfy` has the same station as objects whose methods update their fields in the source's order, each
proved to perform the step of that name, and `ArqPair.dfy` runs two such objects through any sequence of
events, with the theorems stated of what the objects then hold. `MemoryArq.dfy` proves that a frame is complete as
soon as each of its blocks has been good in some copy; `Reception.dfy` ties that store to the carrier decoder of
`Carriers.dfy`.

The channel carries at most one frame at a time, because a station transmits to completion before it does
anything else, and misses what is on its way to it when it begins to transmit. The frame is lost, or it is
heard with any subset of its blocks good and arbitrary bytes in the others. A block whose check passes is the
block that was sent. ACKs carry no number: that they are understood rests on the alternation of frame types, on
acknowledging again and never refusing what has been passed on, and on the single frame in flight. All of this
is proved of every run, with gear shifts that slice the queue again in the middle of a retry, break-ins that
turn the link round, data and requests from the host at any time, and the timers, the main loop and ABORT at any
time at which the station is not transmitting, whether or not a frame is on its way to it. `record`, `removed`
and `delivered` are history: the last data frame built, the bytes taken off the queue because of an ACK, and the
bytes passed to the host.

**The modem's numbers.** `Fft.dfy` proves the in-place bit-reversed transform equal to the discrete Fourier
sum, over exact reals with the roots as parameters. `Carriers.dfy` covers counted and CRC-tagged blocks and
their reassembly, `Psk.dfy` the differential PSK and 16QAM symbols with their exact decision margins and the
tracking magnitude threshold, `Digits.dfy` the positional notation both rest on.

**Streams and codes.** `Kiss.dfy` (KISS framing over ring buffers), `Scs.dfy` (170-stuffing with a frame check
sequence), `Crc.dfy` (the table form, the bit form, and the residue of Appendix C.2 of RFC 1662),
`Packing.dfy` (6-bit callsigns and grid squares), `Fec.dfy` (the broadcast mode with repeats).

**The dictionary.** `Probe.dfy` proves that `i -> 5i + 1` modulo a power of two is a single cycle, so the
perturbed probe reaches every slot; `Dictionary.dfy` has the table as a class, each method proved to perform a
step that is defined on tables of any history, and proves that it represents the finite map of values last added,
across every resize, as long as nothing is deleted. `DictionaryRuns.dfy` has the hash of the program and runs that
show what adding after a deletion can do.

## Where the code does not do what one would expect

The model does what the code does, and states exactly when the expected property holds.

- GetNextFrameData clamps the gear pointer one past the table (`Gear.ClampIsOneTooHigh`). Gearshift_9 never asks
  for such a shift, so no run gets there (`Gear.GearSafety`).
- A NAK can move the gears up, because the decision looks at the average and the counted ACKs after it too
  (`GearClimb.NakCanShiftUp`); three NAKs more than two per mode bring the most robust mode all the same
  (`GearClimb.NaksAlwaysReachTheBottom`).
- The check of a data block divides with 0x8810, which is not the polynomial that its comment names in the notation the
  division uses; odd numbers of wrong bits are still detected (`Carriers.OddErrorsAreDetected`).
- When the wait for a confirmed call runs out, the session ends with the outbound queue kept; every other way in
  which polling ends a session empties it (`DeadPeer.QueueAtTheEnd`, over whole silences
  `Silence.QueueAfterSilence`, with a run that gets there in `Silence.KeptQueueIsReachable`).
- Deleting from the dictionary can hide other keys: it is safe exactly when no remaining key's probe crosses the
  cleared slot (`Dictionary.ClearingIsSafe`). After adding a and h and deleting a, h is not found
  (`DictionaryRuns.DeletionCanHideAKey`).
- After deletions a table may be left full, because the used count that decides its growth goes down even for keys
  that were never there; a search then never ends. It ends exactly when a slot is empty or holds the key
  (`Dictionary.SearchEndsExactly`, `Dictionary.FullTableNeverEnds`, `Dictionary.StaysExactly`). Fifteen calls on an
  empty dictionary get there (`DictionaryRuns.DeletionsCanFillTheTable`).
- The used count is unsigned: more deletions than adds wrap it, and the next add that is due to grow the table doubles
  its size for ever (`Dictionary.GrowthEndsExactly`, `Dictionary.WrappedNeverGrows`,
  `DictionaryRuns.DeletionsCanStopGrowth`).
- Enumerating looks at the place behind the table exactly when it finds nothing more (`Dictionary.Dict.Enumerate`);
  the result does not depend on it.
- Looking up an absent key yields NULL, not the default its documentation promises; the default is returned only for
  a missing key argument (`Dictionary.Dict.Get`).
- Overwriting a key counts towards the dictionary's load like a new one, so a table may grow early
  (`Dictionary.Dict.Put`); a resize counts afresh.
- Callsigns are copied into ten bytes with their end mark: those of ten characters, a name of seven with SSID 10 to
  15, do not fit, though the syntax check accepts them. A callsign of seven characters without SSID is cut, SSID 0 is
  dropped, and only the first character is kept of an SSID that is not a number from 10 to 15
  (`Packing.CallsignComesBack`, `Packing.TenCharactersDoNotFit`, `Packing.DecompressionFits`).
- The SCS receive buffer holds 499 bytes. A longer stuffed frame is never accepted, unless only the 0 behind a final 170
  is missing, and one whose first byte is 170 is taken for a repeat request (`Scs.WholeFrameIsAccepted`,
  `Scs.OverlongFrameIsNotAccepted`).
- An SCS reply is stuffed into 500 bytes and copied back into a buffer of 266: a reply of 256 data bytes fits exactly
  when at most three of its bytes are 170 (`Scs.ReplyFits`, `Scs.FullReplyFits`).
- When the KISS receive ring does not begin with a FEND, the search for the next one does not wrap round and may leave
  the ring (`Kiss.Ring.DropToFend`); with whole frames and no overrun this never comes up (`Kiss.NothingToDrop`).
  Noise between two frames is enough, without any overrun: the ring is left exactly when the noise reaches to its end
  (`Kiss.ResyncAfterNoise`, with an input in `Kiss.NoiseCanLeaveTheRing`).
  Noise before a frame costs that frame as well, because its first FEND is taken for the end of the noise
  (`Kiss.NoiseCostsOneFrame`).
  KISS frames of more than 498 bytes are cut there (`Kiss.NextReadsFrame`), and a transmit ring that fills up counts as
  empty (`Kiss.FillAppends`).
- The ten seconds that a called station waits for its caller are not stopped when it is disconnected meanwhile, by ABORT for
  one: they then end the next call that it makes (`Calls.WaitEndsNextCall`). Within a session they end it only while the
  call is unconfirmed (`Calls.OnlyUnconfirmedEnds`).
- Two of the 4PSK and six of the 8PSK phases are decided for the neighbour of the nearest symbol (`Psk.Slice4IsNearest`,
  `Psk.Slice8IsNearest`).
- A broadcast session keeps the counters of the one before, so it may begin by playing that one's last block again
  (`Fec.FirstPollRepeats`). Setting the mode clears the count of frames and begins again with the even frame type; a
  block equal to the one before it is then lost if that had the same type (`Fec.EqualBlockCanBeLost`).
- A garbled repeat of a block already passed on is kept and reported as an error with the next frame type
  (`Fec.CopiesOfBlock`, `Fec.TypeChangeReports`).

## Model

| member | source | states |
|---|---|---|
| `Frames.ModeOfData` | ext/ardop1/ARQ.c:1197-1206 | Data types come in even/odd pairs of one mode: flipping the low bit stays a data type of the same mode and changes the parity |
| `Frames.KindsAreDisjoint` | ext/ardop1/SoundInput.c:384-402 | The kinds of frames, told by their types, exclude each other; requests and their answers lie side by side; both frames of a pair are FSK or neither is |
| `Frames.CapacitiesAgree` | ext/ardop1/ARDOPC.c:326-344 | The capacity table used for shifting up agrees with blocks times block length, used for slicing, on every mode |
| `Frames.JoinSplit` | ext/ardop1/ARDOPC.c:1498-1534 | Filling n blocks in order and joining their counted contents gives the payload back, whenever it fits |
| `Gear.NextTypeAlternates` | ext/ardop1/ARQ.c:1197-1206 | A new data frame has the parity opposite to the last acknowledged one, in the current mode, whatever the mode before |
| `Gear.InitialisedIsReady` | ext/ardop1/ARQ.c:1146-1164 | After initialisation for any bandwidth and setting the pointer is inside both tables and no shift is pending |
| `Gear.ShiftedIsReady` | ext/ardop1/ARQ.c:775-847 | Gearshift_9 only requests a shift that stays inside the mode table, and keeps the average 0 or in 38..100 |
| `Gear.AppliedIsReady` | ext/ardop1/ARQ.c:1165-1192 | Applying a legal request keeps the pointer inside, and changes the mode exactly when a shift was pending |
| `Gear.ReportedIsReady` | ext/ardop1/ARQ.c:979-993 | A quality report in an ACK or NAK (level 0..31) keeps pointer, tables and average in range and does not move the pointer |
| `Gear.ClampIsOneTooHigh` | ext/ardop1/ARQ.c:1165-1192 | GetNextFrameData alone keeps the pointer inside the table if and only if the request does not reach past the last entry |
| `Gear.GearSafety` | ext/ardop1/ARQ.c:775-1192 | In every run of ACKs, NAKs, frames, cleared counters and renegotiations the pointer stays inside the mode and threshold tables and the average is 0 or in 38..100 |
| `GearClimb.ShiftUpIsEarned` | ext/ardop1/ARQ.c:808-847 | A report moves the pointer up, by one, only if the average with the report in it exceeds the threshold of the mode left, at least two ACKs were counted, and more bytes remain than a frame of that mode carries; after a NAK only on the first NAK of a mode that has worked, or at the bottom |
| `GearClimb.ShiftDownIsForNaks` | ext/ardop1/ARQ.c:785-807 | A report moves the pointer down, by one, only after a NAK, and in a mode that has worked only after two |
| `GearClimb.FailedModeNeedsFiveAcks` | ext/ardop1/ARQ.c:822-829 | A mode to which a shift failed at once is tried again only after five ACKs |
| `GearClimb.QualityComesBack` | ext/ardop1/ARDOPC.c:1840-1875 | The quality one side measures comes back to the other in an ACK or NAK, rounded down to an even number, and as 38 when it is worse |
| `GearClimb.RepliesAreQualities` | ext/ardop1/ARDOPC.c:1840-1875 | The types taken for an ACK or a NAK are exactly those of some quality |
| `GearClimb.ShiftBeginsAgain` | ext/ardop1/ARQ.c:795-846 | A shift clears the average and both counters, so that the next one has to be earned anew |
| `GearClimb.AcksReachTheTop` | ext/ardop1/ARQ.c:2084-2112 | From any state of the gears five ACKs per mode of the best quality, with enough left to send and frames chosen between them, bring the pointer to the last mode, under every threshold table |
| `GearClimb.NaksReachTheBottom` | ext/ardop1/ARQ.c:2163-2185 | Two NAKs per mode, whatever quality they report, bring the pointer to the first mode, unless two ACKs have been counted since the last NAK or shift |
| `GearClimb.NaksAlwaysReachTheBottom` | ext/ardop1/ARQ.c:2163-2185 | From any state three NAKs more are enough |
| `GearClimb.NakCanShiftUp` | ext/ardop1/ARQ.c:808-847 | Two ACKs of middling quality and a NAK that reports a good one move the gears up |
| `GearClimb.HistoryIsRight` | ext/ardop1/ARQ.c:785-835 | Over every run from a forgotten history a mode counts as having worked as often as a report came with an ACK counted while it was in use, in 16 bits, and as tried if and only if a shift up to it was asked for |
| `GearClimb.FailedModeIsLeft` | ext/ardop1/ARQ.c:785-807 | A mode that has never worked is left on its first NAK and stays marked as one that has not worked |
| `GearClimb.StartsLowOrHalfWay` | ext/ardop1/ARQ.c:1146-1164 | A connection begins with the most robust mode, or with fast start half way up |
| `GearClimb.ModesFitBandwidth` | ext/ardop1/ARQ.c:668-735 | No mode of a session is wider than its bandwidth, and unless only FSK is allowed the last one uses all of it |
| `GearClimb.ThresholdsMatchModes` | ext/ardop1/ARQ.c:736-774 | Every mode has its threshold, the last one 0, and none is left over unless only FSK is allowed |
| `GearClimb.ModesGetFaster` | ext/ardop1/ARQ.c:668-735 | A mode further up the table never carries less in a frame |
| `ArqLink.NextDataFrameOk` | ext/ardop1/ARQ.c:1035-1101 | The frame sliced from the queue has the other parity and its blocks join to a non-empty prefix of the queue |
| `ArqLink.SendDataLeads` | ext/ardop1/ARQ.c:1011-1124 | SendData at a point where everything is acknowledged puts a fresh data frame, IDLE or DISC on the air and keeps the pair's invariant |
| `ArqLink.YieldLeads` | ext/ardop1/ARQ.c:1835-1855 | A sender that answers BREAK with an ACK hands the lead to its peer with nothing unaccounted for |
| `ArqLink.AckLevels` | ext/ardop1/ARQ.c:2084-2112 | The ACK takes off the queue exactly the bytes the receiver has passed to its host |
| `ArqLink.LeaderNaked` | ext/ardop1/ARQ.c:2163-2185 | After a NAK the same frame stays in process, or the queue is sliced again for another mode and type, with the receiver's record still consistent |
| `ArqLink.LeaderYields` | ext/ardop1/ARQ.c:2114-2162 | A BREAK in ISSData discards the queue only while the frame in process has not been passed on, and hands the lead over |
| `ArqLink.StoreHoldsBlocks` | ext/ardop1/SoundInput.c:744-827 | Blocks kept from earlier copies and blocks read from this copy all belong to the frame in process |
| `ArqLink.AcceptedIsSent` | ext/ardop1/SoundInput.c:744-827 | A frame accepted from blocks gathered over several copies is exactly the content sent |
| `ArqLink.ReceiverGetsGoodData` | ext/ardop1/ARQ.c:1726-1777 | A good data frame is passed to the host at most once and acknowledged |
| `ArqLink.ReceiverGetsBadData` | ext/ardop1/ARQ.c:1783-1806 | A bad copy of a frame already passed on is acknowledged again, any other is refused; neither upsets the pair |
| `ArqLink.LeaderHears` | ext/ardop1/ARQ.c:1818-2231 | Whatever the sending or calling side hears keeps the pair's invariant, in every state and substate |
| `ArqLink.FollowerHears` | ext/ardop1/ARQ.c:1300-1816 | Whatever the called or receiving side hears keeps the pair's invariant, in every state and substate |
| `ArqLink.NextFrameKinds` | ext/ardop1/ARQ.c:329-477 | Asking for the next frame hangs up, starts a disconnect, or only changes flags; a repeat is always of the frame on record or of DISC |
| `ArqLink.PollKinds` | ext/ardop1/ARDOPC.c:2300-2400 | A timer or main-loop poll hangs up, starts a disconnect, repeats the frame on record, or only changes flags; it passes nothing to the host |
| `ArqLink.CommandKinds` | ext/ardop1/HostInterface.c:79-103 | Host commands set flags or append to the end of the queue and touch nothing else |
| `ArqLink.ListenerPolls` | ext/ardop1/ARDOPC.c:2300-2400 | Polling a station that is not transmitting, with or without a frame on its way to it, keeps the pair's invariant; if it transmits, what was on its way to it is missed |
| `ArqLink.StartedIsInvariant` | ext/ardop1/ARQ.c:2356-2410 | Any two disconnected stations, one of which calls, satisfy the invariant, whatever else is left in their fields |
| `ArqLink.StepKeepsInvariant` | ext/ardop1/ARQ.c:1279-2238 | Every loss, reception, poll and command keeps the invariant of the two stations and the air |
| `ArqLink.RunKeepsInvariant` | ext/ardop1/ARQ.c:1279-2238 | The invariant holds in every state of every run |
| `Delivery.DeliveryIsSafe` | ext/ardop1/ARQ.c:1726-1806 | In every run from a call the bytes passed to a host are the bytes acknowledged to the other side or those plus exactly the frame in process, which is the head of the queue; nothing is dequeued before it is delivered |
| `Delivery.SingleMaster` | ext/ardop1/ARQ.c:1835-1855 | In every run the two stations are never both in ISS or IDLE |
| `Delivery.TakesOverOnlyAfterYield` | ext/ardop1/SoundInput.c:1077-1098 | A station in IRStoISS becomes sender only when its peer is already IRS |
| `Delivery.MemoryArqIsSound` | ext/ardop1/SoundInput.c:1165-1196 | In every reachable state a carrier marked good under the type in process, or under the last type once everything is acknowledged, holds that frame's block |
| `MemoryArq.CopiesComplete` | ext/ardop1/SoundInput.c:744-827 | Over any number of copies of a new frame, whatever is read for their bad blocks: as long as some block was bad in all of them the answer is a NAK and nothing is passed on; from the copy on with which every block was good in some copy the answer is an ACK, and the host has been given exactly the frame, once |
| `Delivery.HearKeeps` | ext/ardop1/ARQ.c:1279-2238 | Receiving can only leave the queue, clear it, or move the frame in process from it to the acknowledged bytes; only data heard in IRS reaches the host |
| `Delivery.PollMoves` | ext/ardop1/ARDOPC.c:2300-2400 | Polling passes nothing to the host and removes from the queue only by clearing it |
| `Delivery.StepStaysFromOffered` | ext/ardop1/ARQ.c:1279-2238 | One step keeps everything delivered and everything still accounted for within what the hosts offered |
| `Delivery.HostsReceiveWhatWasOffered` | ext/ardop1/ARQ.c:1726-1777 | Over whole runs with link turnovers and discarded queues, each host receives a subsequence of what the other offered |
| `Delivery.QueuesStayBelowLimit` | ext/ardop1/HostInterface.c:79-103 | In every run both queues stay below the 4096 bytes of their buffer |
| `Delivery.EveryRunIsSound` | ext/ardop1/ARQ.c:1279-2238 | Memory ARQ soundness while sending and while idle, and take-over only after yielding, for every run that a call starts |
| `Delivery.CallDeliversWhatWasOffered` | ext/ardop1/ARQ.c:1279-2238 | In every run that a call starts, each host is given a subsequence of what the other offered |
| `Sessions.SessionsKeepInvariant` | ext/ardop1/ARQ.c:2356-2410 | Any number of calls by either station, each once both are disconnected and nothing is on the air, keep the invariant, whatever earlier sessions left behind |
| `Sessions.EverySessionIsSafe` | ext/ardop1/ARQ.c:1279-2238 | In every state of every one of those sessions delivery is safe both ways, one station at most is sending, and held blocks are the sender's |
| `Sessions.EverySessionDeliversWhatWasOffered` | ext/ardop1/ARQ.c:1726-1777 | What a host is given in a session is a subsequence of what was queued for it when that began and offered since |
| `Reception.DecoderServesStation` | ext/ardop1/SoundInput.c:744-827 | With blocks that pass their check being those sent, the carrier decoder finds a frame good, and joins its data, exactly as the memory ARQ store of the link model |
| `Reception.StoreStaysInStep` | ext/ardop1/SoundInput.c:744-827 | Decoder and store stay in step from copy to copy of a frame |
| `Progress.DataAnswered` | ext/ardop1/ARQ.c:1726-1806 | A receiver that is not ending or breaking in answers every copy of the frame in process, with an ACK if all blocks are good |
| `Progress.AckMovesOn` | ext/ardop1/ARQ.c:2084-2112 | An ACK takes the frame off the queue and puts the next frame, cut to the current mode, or IDLE when nothing is left, on the air |
| `Progress.NakStays` | ext/ardop1/ARQ.c:2163-2185 | A NAK takes nothing off the queue and leaves the sender repeating or sending a new slice of the same bytes |
| `Progress.RepeatGoes` | ext/ardop1/ARDOPC.c:2304-2321 | Before ARQTimeout the repeat timer sends the frame in process again, unchanged |
| `Progress.AttemptProgresses` | ext/ardop1/ARQ.c:1011-1124 | Any combination of lost, damaged and good frames and replies keeps the transfer under way and the stream complete; a clean one takes at least a smallest frame, or all there is, off the queue |
| `Progress.QueueArrives` | ext/ardop1/ARQ.c:1011-1124 | However many losses lie between, as many clean attempts as the queue fills frames of the smallest mode (16 bytes) suffice for the whole queue to be given to the other host, one more if a shorter frame was already in process |
| `Progress.CallConnects` | ext/ardop1/ARQ.c:1905-2072 | An accepted call whose four frames come through puts the caller's first data frame on the air with its queue untouched, and both stations set for the bandwidth answered |
| `Progress.CallTransfersQueue` | ext/ardop1/ARQ.c:1905-2112 | From the call to the IDLE at the end: after a sixteenth as many clean attempts as queued bytes, rounded up, the other host has been given exactly the caller's queue |
| `Progress.LinkTurns` | ext/ardop1/ARQ.c:1686-1717 | IDLE, BREAK and ACK make the receiving station the sender of its own queue, and the former sender its receiver, with both queues kept |
| `Progress.DisconnectEnds` | ext/ardop1/ARQ.c:2187-2230 | DISC and END leave both stations disconnected with empty queues and nothing on the air |
| `Progress.ConAcksNameBandwidths` | ext/ardop1/ARQ.c:1528-1545 | The four ConAck frames name four different bandwidths, the wider the higher the type |
| `Resume.IdleIsAcknowledged` | ext/ardop1/ARQ.c:1706-1714 | A receiver that is neither hanging up nor asking for the link nor timed out acknowledges every IDLE frame, and its queue, store and what it has passed on stay the same |
| `Resume.IdleIsAnswered` | ext/ardop1/ARQ.c:1686-1717 | On the link: with IDLE on the air to such a receiver, hearing it puts an ACK on the air and changes nothing on the idling side |
| `Resume.AckResumes` | ext/ardop1/ARQ.c:1823-1831 | An ACK takes an idling sender back to sending if and only if its queue is not empty; the first frame of the queue goes out, cut to the mode in use |
| `Resume.OfferTried` | ext/ardop1/ARQ.c:1823-1831 | A lost IDLE or ACK changes nothing but the time and IDLE is sent again; when both come through, a sender with data is sending again, with no byte lost |
| `Resume.SenderResumes` | ext/ardop1/ARQ.c:1823-1831 | From the end of a transfer: bytes queued then, the IDLE heard and its ACK heard put the sender back to sending, with its stream longer by exactly these bytes |
| `Resume.OfferArrives` | ext/ardop1/ARQ.c:1823-1831 | Bytes queued while idling are all given to the other host after one clean attempt and as many more as they fill smallest frames, whatever is lost in between |
| `Resume.NextTransfer` | ext/ardop1/ARQ.c:1823-1831 | One transfer after another: at the end of the next one the other host has been given what it had, followed by exactly the bytes queued since |
| `Resume.BreakIsAcknowledged` | ext/ardop1/ARQ.c:1669-1684 | Whoever is asked for the link, idle, sending or listening already, answers BREAK with an ACK, the second and every further time too, with nothing passed on or taken off its queue as acknowledged |
| `Resume.AckGivesLink` | ext/ardop1/SoundInput.c:1073-1098 | The ACK for a BREAK makes the station that asked the sender of its whole queue |
| `Resume.BreakTried` | ext/ardop1/ARQ.c:1835-1855 | A lost BREAK or ACK changes nothing for the station that asks, and BREAK is sent again; when both come through it is sending its queue |
| `Resume.TurnArrives` | ext/ardop1/ARQ.c:1835-1855 | A station that has asked for the link gets it, and its whole queue across, after one clean attempt and as many more as the queue fills smallest frames, whatever is lost in between |
| `Resume.IdleIsBrokenIntoOnLink` | ext/ardop1/ARQ.c:1695-1704 | A receiver that wants the link starts asking for it when it hears IDLE, and repeats that |
| `Resume.DataMakesReady` | ext/ardop1/ARQ.c:1726-1806 | After its answer to a new data frame, good or bad, a receiver is ready to break in |
| `Resume.BreakCommandAsks` | ext/ardop1/SoundInput.c:1236-1258 | Told to break in, a ready receiver answers the next new data frame with BREAK, passes nothing of it on, and asks until it is given the link |
| `Resume.BreakInTurns` | ext/ardop1/SoundInput.c:1236-1258 | On the link: that BREAK goes on the air in answer to the frame in process, and the link turns round |
| `Resume.DataIsAnsweredWithBreak` | ext/ardop1/SoundInput.c:1260-1271 | While it asks for the link a station answers every data frame with another BREAK and passes nothing on |
| `Resume.AliveUntilTimeout` | ext/ardop1/ARQ.c:434-449 | ARQTimeout counts from the last ACK or BREAK heard by a sender, or the last IDLE, BREAK or new good data heard by a receiver: no poll gives the session up before that |
| `Calls.RequestIsAnswered` | ext/ardop1/ARQ.c:1330-1480 | A called station answers every copy of a request that it can decode, also when its first answer was lost |
| `Calls.RingTried` | ext/ardop1/ARQ.c:381-418 | An unanswered request is sent again, one repeat less being left; once request and answer are both decoded the caller confirms |
| `Calls.ConfirmationIsAnswered` | ext/ardop1/ARQ.c:1515-1613 | The confirmation is acknowledged as soon as it is decoded, and every copy of it after that, with the station set for the bandwidth it names |
| `Calls.AgreementTried` | ext/ardop1/ARQ.c:2004-2040 | A lost confirmation or ACK changes nothing for the caller and is made good by the repeat; once both come through the first data frame is on the air and both stations have the bandwidth and the gears agreed on |
| `Calls.CallArrives` | ext/ardop1/ARQ.c:1905-2040 | A call is answered if a clean attempt comes within its repeats; two clean attempts and as many more as the queue fills smallest frames then bring the queue across |
| `Calls.CallTransfersDespiteLosses` | ext/ardop1/ARQ.c:1905-2112 | From the call on: if one of the first ARQConReqRepeats requests comes through clean, the other host is given exactly the queue of the caller, however many frames and replies are lost or damaged in between |
| `Calls.RejectionEnds` | ext/ardop1/ARQ.c:1980-1990 | A rejected call ends at the next timer with the queue of the caller cleared, nothing on the air, and the called station as free as before |
| `Calls.CallerIgnores` | ext/ardop1/ARQ.c:1905-1990 | Nothing but an answer or a rejection makes a difference to a calling station |
| `Calls.AbortEnds` | ext/ardop1/ARQ.c:333-348 | ABORT ends a session with nothing sent, an empty queue and no request left, at once or for a sending or calling station at its next timer or poll |
| `Calls.GivingUpSendsDisc` | ext/ardop1/ARDOPC.c:2323-2366 | A station whose send timeout runs out sends one DISC and has nothing left of the session |
| `Calls.DisconnectedForgets` | ext/ardop1/ARQ.c:466-473 | Once disconnected, the main loop forgets a request to disconnect that came too late, and the count of repeats |
| `Calls.OnlyUnconfirmedEnds` | ext/ardop1/ARDOPC.c:2377-2395 | In every run the ten seconds that a called station waits end no session but one that was never confirmed |
| `Calls.WaitEndsNextCall` | ext/ardop1/ARDOPC.c:2377-2395 | A wait left running when the station was disconnected meanwhile ends the next call it makes, at the time the wait is over; without one no call is ended by it |
| `Calls.AcceptedIsKept` | ext/ardop1/ARQ.c:1385-1440 | For ten seconds after accepting a call no timer and no poll ends the session, unless ARQTimeout is shorter |
| `Calls.ConfirmedIsKept` | ext/ardop1/ARQ.c:1545-1560 | Once the call is confirmed only ARQTimeout ends the session |
| `Calls.DataPhaseBeginsAnew` | ext/ardop1/ARQ.c:1996-2014 | The first ACK starts the data phase with no average and no NAK counted, in the mode the connection begins with |
| `Calls.ConnectionBeginsAnew` | ext/ardop1/ARQ.c:1227-1254 | Whatever happened before, a station that calls or accepts a call has forgotten which modes worked |
| `Calls.DisconnectStarts` | ext/ardop1/ARQ.c:2437-2463 | A sending or idling station whose host asks to disconnect sends its first DISC at the next timer |
| `Calls.ReceiverDisconnects` | ext/ardop1/ARQ.c:1686-1693 | A receiving station whose host asks to disconnect sends its first DISC when the other side has nothing more to send |
| `Calls.DisconnectGoesOut` | ext/ardop1/ARQ.c:2437-2463 | On the link, in a transfer or after one: the host asks, the frame on the air is lost, the timer puts DISC on the air |
| `Calls.MainLoopWaits` | ext/ardop1/ARDOPC.c:699-717 | While a frame is being repeated the main loop sends and changes nothing |
| `Calls.CommandsOutOfPlace` | ext/ardop1/HostInterface.c:545-556 | DISCONNECT changes nothing in a disconnected station, and BREAK nothing in one that is not receiving |
| `Calls.DiscIsAnswered` | ext/ardop1/ARQ.c:2187-2208 | Every DISC is answered with END and leaves the other station disconnected with an empty queue, one that has hung up before included |
| `Calls.HangUpTried` | ext/ardop1/ARQ.c:350-372 | A DISC that is not answered is sent again, up to five in all; then, or with the END, the station is disconnected with an empty queue |
| `Calls.HangUpEnds` | ext/ardop1/ARQ.c:350-372 | A station that hangs up is disconnected, with an empty queue and nothing on the air, after at most five attempts, whatever is lost; so is the other one as soon as one DISC reaches it, with nothing more passed to its host |
| `DeadPeer.EffectiveTurnProgresses` | ext/ardop1/ARDOPC.c:2300-2400 | A turn of timers and main loop strictly lowers the rank of a station that hears nothing: any repeating turn when it is aborting, disconnecting or calling, otherwise one that comes after the timeouts it waits for |
| `DeadPeer.SilenceRanks` | ext/ardop1/ARQ.c:329-477 | Over any sequence of turns the rank falls by at least one per effective turn and never rises |
| `DeadPeer.RankBound` | ext/ardop1/ARQ.c:351-431 | The rank is at most six, or what is left of ARQConReqRepeats plus one for a calling station |
| `DeadPeer.TwoTurnsAfterTimeout` | ext/ardop1/ARDOPC.c:2326-2373 | A connected station is in DISC after one turn past ARQTimeout and one more a second later |
| `DeadPeer.AtMostFiveDiscs` | ext/ardop1/ARQ.c:351-373 | A station whose repeated frame is a DISC only when it is disconnecting sends at most five DISC frames over any sequence of polls |
| `DeadPeer.CallSendsAtMostItsRepeats` | ext/ardop1/ARQ.c:379-412 | An unanswered call sends its request at most ARQConReqRepeats times, the first included |
| `DeadPeer.QueueAtTheEnd` | ext/ardop1/ARDOPC.c:2377-2400 | When a poll ends a session the queue is empty afterwards, except if and only if the pending timeout ended it while data was queued |
| `DiscLimit.RunKeepsTimed` | ext/ardop1/ARDOPC.c:2326-2373 | In every run of the link the timeout flag is up exactly while the send timeout runs, and a DISC count is in 1..5 |
| `DiscLimit.HearingKeeps` | ext/ardop1/ARQ.c:1279-2238 | Hearing a frame, in every state, touches no timeout and sends no DISC except the first one of a disconnect that was asked for |
| `DiscLimit.RunRepeatsNoDisc` | ext/ardop1/ARQ.c:329-477 | In every state of every run that a call starts, what a station repeats is a DISC only when it is disconnecting |
| `DiscLimit.SilenceAfterRun` | ext/ardop1/ARQ.c:351-373 | A silence that begins in any state of any run costs at most five DISC frames |
| `DiscLimit.FiveDiscsPerRequest` | ext/ardop1/ARQ.c:351-376 | Over every run of receptions, losses, polls and commands a station sends at most five DISC frames for each time its host asks it to disconnect, besides those it still had to send at the start |
| `Silence.DeadPeerEnds` | ext/ardop1/ARQ.c:434-448 | From every state, if nothing more is received, as many effective turns as the rank says bring the station to DISC, and a connected one then has an empty queue unless the pending timeout kept it |
| `Silence.QueueAfterSilence` | ext/ardop1/ARDOPC.c:2300-2400 | At the end of any silence, of any length, the queue is not empty if and only if the pending timeout ended the session with data queued and no send timeout fired after it |
| `Silence.SilenceEmptiesQueue` | ext/ardop1/ARQ.c:329-477 | A connected station that is not waiting for a call to be confirmed ends every silence with an empty queue |
| `Silence.KeptQueueIsReachable` | ext/ardop1/ARDOPC.c:2377-2400 | A run of the link in which a called station ends disconnected with a byte still queued |
| `Silence.ConnectedTurn` | ext/ardop1/ARDOPC.c:2300-2400 | One turn that ends a session leaves data queued if and only if it was the pending timeout, with no abort or DISC repeat under way |
| `ArqClass.GearBox.constructor` | ext/ardop1/ARQ.c:1227-1254 | Before any connection the gears have no modes and an empty history |
| `ArqClass.GearBox.ClearHistory` | ext/ardop1/ARQ.c:1227-1254 | The loops over the history arrays forget which modes worked and which were tried, for all sixteen slots |
| `ArqClass.GearBox.InitializeModes` | ext/ardop1/ARQ.c:1146-1164 | Sets tables, pointer and current mode to the specified initial gears and drops a pending shift |
| `ArqClass.GearBox.ComputeQualityAvg` | ext/ardop1/ARQ.c:979-993 | The first report replaces the average, later ones are averaged in, rounding up |
| `ArqClass.GearBox.Gearshift` | ext/ardop1/ARQ.c:775-847 | The in-place decision equals the specified one: when that shifts up or down is GearClimb.ShiftUpIsEarned and GearClimb.ShiftDownIsForNaks, where it leads GearClimb.AcksReachTheTop and GearClimb.NaksReachTheBottom |
| `ArqClass.GearBox.ReportQuality` | ext/ardop1/ARQ.c:979-993 | Averages the reported quality, then decides on a shift |
| `ArqClass.GearBox.ApplyShift` | ext/ardop1/ARQ.c:1165-1192 | Moves the pointer by the pending shift with the source's clamps and reads the mode there |
| `ArqClass.SenderBox.constructor` | ext/ardop1/ARQ.c:1227-1254 | A fresh sending side has nothing queued, in process or acknowledged |
| `ArqClass.SenderBox.Append` | ext/ardop1/HostInterface.c:79-103 | Appends unless the queue would reach its limit, and then drops the whole piece |
| `ArqClass.SenderBox.RemoveDataFromQueue` | ext/ardop1/ARDOPC.c:2262-2296 | Removes a prefix of at most the given length and records it as acknowledged |
| `ArqClass.SenderBox.NextFrame` | ext/ardop1/ARQ.c:1035-1101 | Builds the next frame from the head of the queue without removing it, and records type and length in process |
| `ArqClass.ReceiverBox.constructor` | ext/ardop1/SoundInput.c:1165-1196 | A fresh receiving side holds no carrier and has passed nothing on |
| `ArqClass.ReceiverBox.ClearCarriers` | ext/ardop1/ARQ.c:1835-1855 | Forgets all carriers and sets the type they belong to |
| `ArqClass.ReceiverBox.NewFrameType` | ext/ardop1/SoundInput.c:1165-1196 | Forgets the carriers exactly when the type differs from the last long frame |
| `ArqClass.ReceiverBox.Demodulate` | ext/ardop1/SoundInput.c:744-827 | Per carrier: keeps a good block, stores a block that passes its check, otherwise stores what was read as bad |
| `ArqClass.ReceiverBox.CheckCarriers` | ext/ardop1/SoundInput.c:5052-5079 | True if and only if every carrier of the frame is held |
| `ArqClass.ReceiverBox.Collect` | ext/ardop1/SoundInput.c:5052-5079 | Joins the blocks of the first n carriers in carrier order |
| `ArqClass.Arq.constructor` | ext/ardop1/ARQ.c:1227-1254 | A new station is disconnected with no ARQ traffic on record, as the link theorems assume |
| `ArqClass.Arq.SetProtocolState` | ext/ardop1/ARQ.c:244-323 | Entering a state does what the specified step does, and setting the current state does nothing |
| `ArqClass.Arq.InitializeConnection` | ext/ardop1/ARQ.c:1227-1254 | Forgets the last ACKed type, the bandwidth and the mode history, and nothing of the queue |
| `ArqClass.Arq.BeginDisconnect` | ext/ardop1/ARQ.c:2437-2462 | Sends the first DISC, with one repeat counted and the request cleared |
| `ArqClass.Arq.SendData` | ext/ardop1/ARQ.c:1011-1124 | Sends DISC on request, else the next data frame, else IDLE; the new state and frame are those of the link model |
| `ArqClass.Arq.Yield` | ext/ardop1/ARQ.c:2114-2162 | Answers BREAK with an ACK and becomes a receiver with an empty memory ARQ store |
| `ArqClass.Arq.Ask` | ext/ardop1/ARQ.c:1686-1717 | Becomes IRStoISS, sends BREAK and repeats it |
| `ArqClass.Arq.Close` | ext/ardop1/ARQ.c:1618-1640 | Ends the session with queue, repeats and history cleared |
| `ArqClass.Arq.Accept` | ext/ardop1/ARQ.c:1381-1413 | Answers a call with the negotiated ConAck, a ten-second pending timeout and a fresh receiver |
| `ArqClass.Arq.RcvDISC` | ext/ardop1/ARQ.c:1300-1437 | A disconnected station answers DISC with END, accepts or rejects a call, and ignores the rest |
| `ArqClass.Arq.RcvIRSConAck` | ext/ardop1/ARQ.c:1445-1581 | A called station answers a repeated request again and acknowledges the confirmation |
| `ArqClass.Arq.RcvGoodData` | ext/ardop1/ARQ.c:1726-1777 | Breaks in before passing on a new frame, or passes on a type that was not the last one passed, and acknowledges either way |
| `ArqClass.Arq.RcvIRSData` | ext/ardop1/ARQ.c:1583-1808 | Every branch of the receiving state, in the order of the source; that IDLE, BREAK and data are answered is Resume.IdleIsAcknowledged, Resume.BreakIsAcknowledged and Progress.DataAnswered |
| `ArqClass.Arq.RcvIDLE` | ext/ardop1/ARQ.c:1818-1898 | An idle sender resumes on an ACK with data queued, yields on BREAK and ends on DISC or END |
| `ArqClass.Arq.RcvISSConReq` | ext/ardop1/ARQ.c:1905-1980 | A caller confirms a ConAck with the gears for its bandwidth, and aborts when rejected |
| `ArqClass.Arq.RcvISSConAck` | ext/ardop1/ARQ.c:1981-2072 | The first ACK starts the data phase with last-acknowledged type 1; BREAK with nothing queued yields |
| `ArqClass.Arq.RcvAck` | ext/ardop1/ARQ.c:2084-2112 | Takes the frame in process off the queue, reports quality, and sends on |
| `ArqClass.Arq.RcvNak` | ext/ardop1/ARQ.c:2163-2185 | Reports quality and, if a shift results, sends the head of the queue again in the new mode |
| `ArqClass.Arq.RcvISSData` | ext/ardop1/ARQ.c:2074-2231 | Every branch of the sending state, in the source's order |
| `ArqClass.Arq.RcvISS` | ext/ardop1/ARQ.c:1899-2231 | Dispatch over the sending substates |
| `ArqClass.Arq.ProcessRcvdARQFrame` | ext/ardop1/ARQ.c:1279-2238 | Dispatch over protocol states, including the fall from IRS into the sending cases |
| `ArqClass.Arq.Take` | ext/ardop1/SoundInput.c:1077-1098 | IRStoISS hearing an ACK stops the BREAKs, initialises missing gears and sends its data |
| `ArqClass.Arq.RcvLong` | ext/ardop1/SoundInput.c:1160-1292 | A long frame updates the memory ARQ store and is then answered by its type alone or decoded and processed |
| `ArqClass.Arq.ProcessNewFrame` | ext/ardop1/SoundInput.c:1077-1292 | A received frame of any type does to the object what hearing it does in the link model |
| `ArqClass.Arq.GetNextARQFrame` | ext/ardop1/ARQ.c:329-477 | Abort, DISC and connect repeats, timeout: whether there is a frame to repeat, and the new state |
| `ArqClass.Arq.CheckRepeatTimer` | ext/ardop1/ARDOPC.c:2304-2321 | A due repeat is sent, or repeating stops |
| `ArqClass.Arq.CheckSendTimeout` | ext/ardop1/ARDOPC.c:2326-2373 | A send timeout clears the queue, sends one DISC and ends the session |
| `ArqClass.Arq.CheckPendingTimeout` | ext/ardop1/ARDOPC.c:2377-2400 | A pending timeout ends the session without touching the queue |
| `ArqClass.Arq.PollMain` | ext/ardop1/ARDOPC.c:699-717 | The main loop asks for a frame only while no repeat is running |
| `ArqClass.Arq.AddDataToDataToSend` | ext/ardop1/HostInterface.c:79-103 | Host data goes to the end of the queue or, if it does not fit, is dropped whole |
| `ArqClass.Arq.DisconnectCommand` | ext/ardop1/HostInterface.c:545-556 | Sets the disconnect request exactly when connected |
| `ArqClass.Arq.BreakCommand` | ext/ardop1/ARQ.c:2466-2478 | Sets the break request exactly in IRS |
| `ArqClass.Arq.AbortCommand` | ext/ardop1/ARQ.c:2482-2488 | Ends the session at once in IDLE, IRS and IRStoISS, and otherwise at the next poll |
| `ArqClass.Arq.SendARQConnectRequest` | ext/ardop1/ARQ.c:2356-2410 | Starts a call with a fresh connection and the first of its repeats counted |
| `ArqPair.PollStation` | ext/ardop1/ARDOPC.c:2300-2400 | Each timer or main-loop poll on the object is the poll of the link model |
| `ArqPair.CommandStation` | ext/ardop1/HostInterface.c:79-103 | Each host command on the object is the command of the link model |
| `ArqPair.PerformEvent` | ext/ardop1/ARQ.c:1279-2238 | One event on two objects that share nothing is one step of the link, and leaves the other object alone |
| `ArqPair.RunCall` | ext/ardop1/ARQ.c:1279-2238 | After a call and any sequence of events the objects are in the state of that run: delivery is safe both ways, at most one is sending, and each host was given a subsequence of what the other offered |
| `ArqPair.NewPair` | ext/ardop1/ARQ.c:1227-1254 | Two stations as the program starts them share no object and have exchanged nothing |
| `Complex.PowOfPow` | ext/ardop1/FFT.c:144-165 | Powers of powers multiply exponents, for complex numbers as pairs of reals |
| `Complex.EvalIsSum` | ext/ardop1/FFT.c:128-165 | Horner evaluation equals the sum of samples times powers |
| `Complex.EvalSplits` | ext/ardop1/FFT.c:128-165 | A polynomial at z is its even part at z squared plus z times its odd part there |
| `Fft.IPow` | ext/ardop1/FFT.c:63-75 | The square-and-multiply loop computes the power |
| `Fft.NumberOfBitsNeeded` | ext/ardop1/FFT.c:77-88 | The loop finds the lowest set bit among bits 0..16 |
| `Fft.OnlyBitOfPow2` | ext/ardop1/FFT.c:77-88 | A power of two has exactly its own bit set, so the loop finds the exponent |
| `Fft.ReverseBits` | ext/ardop1/FFT.c:91-102 | The shifting loop computes the recursive bit reversal |
| `Fft.RevInvolution` | ext/ardop1/FFT.c:91-102 | Reversing n bits twice gives every index below 2^n back |
| `Fft.DealtSample` | ext/ardop1/FFT.c:121-126 | Splitting into even and odd samples m times puts sample rev(b) + t 2^m at place t of part b |
| `Fft.ReversedIsDealt` | ext/ardop1/FFT.c:121-126 | The bit-reversed copy is the fully split sequence |
| `Fft.SpectrumSplits` | ext/ardop1/FFT.c:144-162 | A butterfly over the spectra of the even and odd samples is the spectrum of the whole, when the root's half power is -1 |
| `Fft.HalfTurn` | ext/ardop1/FFT.c:128-143 | Root(2m)^2 = Root(m) and Root(2) = -1 make every root's half power -1 |
| `Fft.StageStep` | ext/ardop1/FFT.c:128-165 | One pass over all blocks turns the spectra of the parts of one level into those of the next |
| `Fft.RotationIsMul` | ext/ardop1/FFT.c:156-158 | The Alpha/Beta update is multiplication by the root |
| `Fft.CombinePair` | ext/ardop1/FFT.c:147-154 | One butterfly on two array places, and nothing else changes |
| `Fft.CombineBlock` | ext/ardop1/FFT.c:139-159 | The inner loop with the rotated twiddle performs the butterfly of one block in place |
| `Fft.CombineBlocks` | ext/ardop1/FFT.c:134-162 | The loop over blocks performs one stage on the whole array |
| `Fft.OneStage` | ext/ardop1/FFT.c:128-165 | A stage keeps the loop invariant that the array holds the spectra of the parts |
| `Fft.Stages` | ext/ardop1/FFT.c:128-165 | The outer loop leaves the spectrum of the samples |
| `Fft.ReversedCopy` | ext/ardop1/FFT.c:121-126 | The copy loop puts sample i at its bit-reversed index |
| `Fft.Normalize` | ext/ardop1/FFT.c:167-176 | The inverse transform is divided by the number of samples |
| `Fft.FourierTransform` | ext/ardop1/FFT.c:104-177 | For every power-of-two size and every input the arrays hold the spectrum, or the scaled conjugate one for the inverse |
| `Fft.SpectrumIsDft` | ext/ardop1/FFT.c:104-177 | Entry j of the spectrum is the sum over n of x[n] w^(jn) |
| `Carriers.GenCrc16` | ext/ardop1/ARDOPC.c:2104-2150 | The nested loops compute the bit-by-bit register over the given range |
| `Carriers.GenCrc16FrameType` | ext/ardop1/ARDOPC.c:2204-2212 | Appends the check bytes, the low one mixed with the frame type |
| `Carriers.CheckCrc16FrameType` | ext/ardop1/ARDOPC.c:2218-2235 | Accepts exactly when both check bytes match for the given type |
| `Carriers.BlockBelongsToType` | ext/ardop1/ARDOPC.c:2204-2235 | A block made for type t passes the check for type u if and only if u = t |
| `Carriers.BitsOfByte` | ext/ardop1/ARDOPC.c:2114-2146 | The bits that the register takes in are those of the byte, most significant first |
| `Carriers.CrcHasParity` | ext/ardop1/ARDOPC.c:2104-2150 | The register has an odd number of ones if and only if the data has |
| `Carriers.OddErrorsAreDetected` | ext/ardop1/ARDOPC.c:2218-2235 | An odd number of wrong bits in the count and data of a block is always detected |
| `Carriers.CheckBytesTell` | ext/ardop1/ARDOPC.c:2204-2235 | The two check bytes, of which one is mixed with the type, determine the register |
| `Carriers.EncodeBlock` | ext/ardop1/ARDOPC.c:1498-1534 | Writes count, content, padding, check and parity of one carrier, and nothing outside it |
| `Carriers.EncodeCarriers` | ext/ardop1/ARDOPC.c:1498-1534 | The loop over carriers writes the blocks of the split payload one behind another |
| `Carriers.EncodePskData` | ext/ardop1/ARDOPC.c:1455-1535 | The encoded frame has type, session byte and the blocks of the payload, of length 2 + carriers (DataLen + 3 + RSLen) |
| `Carriers.EncodeFskData` | ext/ardop1/ARDOPC.c:1540-1660 | The same for FSK, with the 600 baud frame as three blocks of a third |
| `Carriers.Receiver.CorrectRawDataWithRS` | ext/ardop1/SoundInput.c:744-827 | A held carrier is copied; another is good if and only if it passes its check, as received or as repaired, and only that carrier changes |
| `Carriers.Receiver.DecodeCarriers` | ext/ardop1/SoundInput.c:5052-5079 | The contents are joined in carrier order, the frame is good if and only if every carrier is, and every carrier that is newly good passes its check |
| `Carriers.BlockIsRead` | ext/ardop1/SoundInput.c:744-827 | A block as encoded is read back as its content, with or without having been held, whatever the repair routine does within its contract |
| `Carriers.GoodIsChecked` | ext/ardop1/SoundInput.c:744-827 | A carrier not held before is taken as good only if what is then stored passes the check of the type, and its content is what it counts; one that passes as received is never refused |
| `Carriers.ForeignBlockIsRefused` | ext/ardop1/SoundInput.c:766-822 | A block of another frame type, which the repair leaves alone or gives up on, is refused, and a full length of bytes is returned for it |
| `Carriers.RepairedBlockIsRead` | ext/ardop1/SoundInput.c:777-806 | A block that fails its check and is repaired is stored as repaired, taken as good, and read as its content |
| `Carriers.HeldBlockIsRead` | ext/ardop1/SoundInput.c:744-806 | A carrier that holds its block, or has it as received, or is repaired to it, is good and gives its content |
| `Carriers.DamagedBlockIsRead` | ext/ardop1/SoundInput.c:766-806 | Given a repair that puts up to half as many wrong bytes right as there are parity bytes, a block with no more wrong bytes than that is good and read as its content, unless the check passes by chance on what was received |
| `Carriers.ForeignFrameIsRefused` | ext/ardop1/SoundInput.c:5052-5079 | A frame with one carrier of another frame type is not good |
| `Carriers.PayloadComesBack` | ext/ardop1/SoundInput.c:5052-5079 | Blocks of a split payload, held, received or repaired, read in carrier order join to the payload and are all good |
| `Carriers.FrameComesBack` | ext/ardop1/ARDOPC.c:1455-1535 | What an encoder wrote, cut into carriers and decoded, is the payload, for every payload that fits |
| `Digits.ValueOfDigits` | ext/ardop1/ARDOPC.c:1919-1947 | Digits of a value in any base evaluate to it, when they are enough |
| `Digits.DigitsOfValue` | ext/ardop1/ARDOPC.c:1949-1981 | The value of a digit sequence has those digits |
| `Digits.DigitAt` | ext/ardop1/Modulate.c:551-567 | Shifting and masking picks out one digit |
| `Psk.BytesOfSymbols` | ext/ardop1/Modulate.c:746-860 | Cutting whole groups of bytes into symbols and putting them together again is the identity, for 2-, 3- and 4-bit symbols |
| `Psk.PhaseIsDifference` | ext/ardop1/SoundInput.c:4641-4656 | The wrapped difference is the difference up to one turn, including at both ends of the range |
| `Psk.Slice4Reads` | ext/ardop1/SoundInput.c:4455-4547 | A 4PSK phase difference off by at most 784 mrad, modulo the circle, is decided right |
| `Psk.Slice8Reads` | ext/ardop1/SoundInput.c:4455-4547 | An 8PSK phase difference off by at most 390 mrad, modulo the circle, is decided right |
| `Psk.MarginsAreExact` | ext/ardop1/SoundInput.c:4455-4547 | With one milliradian more there is an input that is decided wrong, in both modes |
| `Psk.Slice4IsNearest` | ext/ardop1/SoundInput.c:4485-4497 | A 4PSK phase is decided for the symbol it is nearest to, but for the two phases 2356 and -2356, one milliradian past the middle |
| `Psk.Slice8IsNearest` | ext/ardop1/SoundInput.c:4514-4537 | An 8PSK phase is decided for the symbol it is nearest to, but for exactly six phases |
| `Psk.Psk4RoundTrip` | ext/ardop1/Modulate.c:746-801 | Every byte sequence, modulated differentially and heard within the margin, decodes to itself |
| `Psk.Psk8RoundTrip` | ext/ardop1/Modulate.c:802-860 | The same for 8PSK and lengths divisible by three |
| `Psk.FirstThresholdNear` | ext/ardop1/SoundInput.c:5242-5243 | The threshold set from the reference symbol starts near three quarters of full scale |
| `Psk.ThresholdSeparates` | ext/ardop1/SoundInput.c:4763-4831 | A threshold near three quarters tells half from full magnitude whenever A > 10E + 40 |
| `Psk.TrackedStaysNear` | ext/ardop1/SoundInput.c:4763-4831 | The integer tracking step keeps the threshold near three quarters |
| `Psk.QamReads` | ext/ardop1/SoundInput.c:4763-4831 | Over any symbol sequence every nibble is read right and the threshold stays near |
| `Psk.Qam16RoundTrip` | ext/ardop1/Modulate.c:861-920 | Every byte sequence, modulated as 16QAM and heard within phase and magnitude bounds, decodes to itself |
| `Psk.Qam16FromReference` | ext/ardop1/SoundInput.c:5242-5243 | The same with the threshold the decoder takes from the reference symbol |
| `Psk.SendGroup` | ext/ardop1/Modulate.c:746-920 | One group's loop extends the phase and magnitude sequence by its symbols |
| `Psk.ModPskData` | ext/ardop1/Modulate.c:720-920 | The loops over bytes send the accumulated phases of the data's symbols, beginning with the reference |
| `Psk.Decode1Car4Psk` | ext/ardop1/SoundInput.c:4455-4547 | The loop writes the bytes of the decided symbols, for the frame's bytes |
| `Psk.Decode1Car8Psk` | ext/ardop1/SoundInput.c:4455-4547 | The same for groups of eight 8PSK symbols and three bytes |
| `Psk.ReadNibble` | ext/ardop1/SoundInput.c:4763-4831 | One QAM symbol is decided by phase and threshold, and the threshold tracks |
| `Psk.Decode1CarQam` | ext/ardop1/SoundInput.c:4763-4831 | The loop writes the bytes of the read nibbles and returns the threshold after the extra group |
| `Kiss.NextReadsFrame` | ext/ardop1/KISSModule.c:209-335 | With two FENDs in the ring the frame at its front is unescaped and taken off exactly, cut at 498 bytes |
| `Kiss.TwoFendsAreAFrame` | ext/ardop1/KISSModule.c:209-335 | A prefix of an encoded stream with two FENDs contains its first frame whole |
| `Kiss.TakeOne` | ext/ardop1/KISSModule.c:209-335 | Taking a frame advances by exactly one in the list sent |
| `Kiss.StreamIsInOrder` | ext/ardop1/KISSModule.c:167-335 | For any chunking and interleaving without overrun the frames returned are a prefix of the data frames sent, and FENDCount is the number of FENDs in the ring |
| `Kiss.StreamIsComplete` | ext/ardop1/KISSModule.c:167-335 | Once everything has been fed and no whole frame is left, every data frame has been returned and the ring is empty |
| `Kiss.CommandsAreReturned` | ext/ardop1/KISSModule.c:300-311 | Once everything is fed and no whole frame is left, exactly the frames that begin with 0, 6 or 12 have been returned, in order; frames beginning with any other byte are taken off the ring and never returned |
| `Kiss.EveryFrameIsReturned` | ext/ardop1/KISSModule.c:300-311 | If every frame fed begins with 0, 6 or 12, exactly the frames fed are returned |
| `Kiss.NextKeepsCount` | ext/ardop1/KISSModule.c:209-335 | Whatever the ring holds, noise included, taking a frame or dropping noise keeps the count of FENDs right |
| `Kiss.NothingFoundEmptiesRing` | ext/ardop1/KISSModule.c:230-256 | Taking a frame that finds none, or no FEND to go on from, leaves an empty ring and a count of 0 |
| `Kiss.NoiseCostsOneFrame` | ext/ardop1/KISSModule.c:230-250 | Noise before a frame costs that frame, whose first FEND is taken for the end of the noise, and no other |
| `Kiss.OverrunForgets` | ext/ardop1/KISSModule.c:193-206 | Bytes that fill the ring up empty it, and nothing of what was in it counts |
| `Kiss.ExtraFendIsSkipped` | ext/ardop1/KISSModule.c:284-297 | An extra FEND before a frame is skipped in the same call |
| `Kiss.StrayEscapeIsDropped` | ext/ardop1/KISSModule.c:263-276 | A byte that need not have been escaped is read as it is |
| `Kiss.NothingToDrop` | ext/ardop1/KISSModule.c:226-232 | With whole frames and no overrun the ring begins with a FEND whenever a frame is taken, so nothing has to be dropped |
| `Kiss.Ring.Append` | ext/ardop1/KISSModule.c:193-206 | Adds a byte at the put pointer; a ring that fills up counts as empty |
| `Kiss.Ring.Remove` | ext/ardop1/KISSModule.c:258-332 | Takes the byte at the get pointer |
| `Kiss.Ring.DropToFend` | ext/ardop1/KISSModule.c:230-256 | The search for the next FEND stays inside the ring if and only if the get pointer is below the put pointer or a FEND lies before the end of the ring; then it drops exactly what is before and including it |
| `Kiss.Ring.FendInTime` | ext/ardop1/KISSModule.c:230-250 | Behind noise at the front of the ring, the search for the next FEND stays inside the ring if and only if the first FEND lies before the end of the ring |
| `Kiss.Modem.ProcessByte` | ext/ardop1/KISSModule.c:193-206 | Stores a byte and counts FENDs as the stream model does, overrun included |
| `Kiss.Modem.ProcessBytes` | ext/ardop1/KISSModule.c:167-190 | The loop stores a whole chunk in order |
| `Kiss.Modem.Discard` | ext/ardop1/KISSModule.c:230-256 | Resynchronisation drops everything up to the next FEND, if it stays inside the ring |
| `Kiss.Modem.ReadByte` | ext/ardop1/KISSModule.c:258-332 | One step of the frame loop: escape, limit, and end of frame |
| `Kiss.Modem.ReadFrame` | ext/ardop1/KISSModule.c:258-332 | The loop over the ring reads what the recursive reading reads |
| `Kiss.Modem.GetNextFrame` | ext/ardop1/KISSModule.c:209-335 | Leaves ring, FEND count, escape flag and frame buffer as the stream model says, and hands on only commands 0, 6 and 12 (of a whole stream that is Kiss.CommandsAreReturned); it leaves the ring if and only if it has to resynchronise and finds no FEND in time |
| `Kiss.ResyncAfterNoise` | ext/ardop1/KISSModule.c:165-262 | A new modem takes a whole frame, then gets noise without FEND and another frame, with no overrun: asking for the next frame stays inside the ring if and only if frame and noise together are shorter than the ring |
| `Kiss.NoiseCanLeaveTheRing` | ext/ardop1/KISSModule.c:165-262 | A frame of 4002 encoded bytes, 94 bytes of noise and a short frame make it leave the ring |
| `Kiss.Modem.SendFrameToHost` | ext/ardop1/KISSModule.c:410-442 | Puts the encoded frame with command 0 into the transmit ring byte by byte, whether there is room or not |
| `Kiss.FillAppends` | ext/ardop1/KISSModule.c:410-442 | All of it is in the ring behind what was there if and only if there is room; a ring that fills up counts as empty |
| `Crc.TableIsShift8` | ext/ardop1/ARDOPC.c:2995-3028 | Every one of the 256 table entries is the register after eight bit steps of 0x8408 |
| `Crc.TableStep` | ext/ardop1/ARDOPC.c:3031-3040 | The table step equals feeding the byte bit by bit, for every register and byte |
| `Crc.ComputeCrc` | ext/ardop1/ARDOPC.c:3031-3040 | The table-driven loop computes the bit-by-bit frame check sequence of the range |
| `Crc.EightWideShifts` | src/maths.cpp:2-24 | Eight steps of the 32-bit register are the eight steps of the 16-bit one |
| `Crc.FeedBits` | src/maths.cpp:2-24 | The inner loop feeds one byte |
| `Crc.CcittCrc16` | src/maths.cpp:2-24 | For a non-empty buffer the result is the byte swap of the complement of the frame check sequence; for an empty one it is the untouched 0xFFFF0000 |
| `Crc.CheckedLeavesResidue` | ext/ardop1/SCSHostInterface.c:1533-1551 | A message followed by its check, low byte first, leaves 0xf0b8 (Appendix C.2 of RFC 1662) |
| `Crc.OnlyCheckLeavesResidue` | ext/ardop1/SCSHostInterface.c:1533-1551 | Two appended bytes leave 0xf0b8 if and only if they are the check of the message |
| `Scs.PrefixUnstuffs` | ext/ardop1/SCSHostInterface.c:501-517 | Every prefix of a stuffed message unstuffs, without an error, to a prefix of it, and the whole to the whole |
| `Scs.ErrorsAreBadMarks` | ext/ardop1/SCSHostInterface.c:501-517 | An error is reported if and only if some 170 in marking position is followed by a byte other than 0 |
| `Scs.EmUnstuff` | ext/ardop1/SCSHostInterface.c:501-517 | The two-index loop writes the unstuffed message and returns its length, or -1 exactly on a bad mark |
| `Scs.Stuff` | ext/ardop1/SCSHostInterface.c:1561-1598 | The loop doubles every 170 with a 0, and stops exactly when the buffer is too small for that |
| `Scs.AppendCheck` | ext/ardop1/SCSHostInterface.c:1561-1598 | Appends the complemented check, low byte first |
| `Scs.CrcStuffAndSend` | ext/ardop1/SCSHostInterface.c:1561-1598 | Sends two unstuffed marks and the stuffed message with its check, with the toggle bit set, if and only if both buffers hold it; otherwise a write leaves a buffer |
| `Scs.ToggleIsCarried` | ext/ardop1/SCSHostInterface.c:1567-1572 | Outside native mode the reply carries the toggle in bit 7 of its second byte and is otherwise the reply; in native mode it is the reply unchanged |
| `Scs.ReplyFits` | ext/ardop1/SCSHostInterface.c:1561-1598 | A reply stays inside 500 bytes and the buffer it is in if and only if its bytes, its check, one more for each 170 among them, and the two marks do |
| `Scs.FullReplyFits` | ext/ardop1/KISSModule.c:340-373 | A reply with 256 data bytes fits the 266-byte reply buffer if and only if at most three of its bytes are 170 |
| `Scs.MarksDoNotFit` | ext/ardop1/KISSModule.c:340-373 | 256 data bytes 170 do not fit the stuffing buffer either |
| `Scs.ReceiveFrame` | ext/ardop1/SCSHostInterface.c:1397-1558 | In host mode noise is dropped, short buffers wait, a repeat request and a bad mark drop, a good residue accepts, anything else waits |
| `Scs.WholeFrameIsAccepted` | ext/ardop1/SCSHostInterface.c:1512-1558 | What the receive buffer holds of a frame is accepted with its content if and only if the frame does not begin with 170 and has at most 499 bytes, or 500 of which the last is the 0 behind a final 170 |
| `Scs.OnlyLastZeroCanMiss` | ext/ardop1/SCSHostInterface.c:501-517 | A proper prefix of a stuffed message unstuffs to all of it if and only if just the 0 behind a final 170 is missing |
| `Scs.AcceptedExactly` | ext/ardop1/SCSHostInterface.c:1480-1558 | Nothing is accepted that does not carry its own check: a message is accepted if and only if the check at its end is that of the rest, it does not begin with a mark, and the buffer holds two bytes, the first a mark, and the message stuffed, of which at most the 0 behind a final mark is missing |
| `Scs.DroppedExactly` | ext/ardop1/SCSHostInterface.c:1480-1558 | A buffer is dropped if and only if it does not begin with a mark, asks for a repeat, or holds what is no part of any stuffed message |
| `Scs.OverlongFrameIsNotAccepted` | ext/ardop1/LinSerial.c:292-306 | A frame with 256 data bytes 170 is never accepted: the buffer is full before it is complete |
| `Scs.PartOfFrameIsKept` | ext/ardop1/SCSHostInterface.c:1512-1558 | No part of such a frame is ever dropped while the rest is awaited |
| `Packing.UnpackInverts` | ext/ardop1/ARDOPC.c:1919-1981 | Unpacking inverts packing on all eight-character strings over codes 32..95 |
| `Packing.PackHalf` | ext/ardop1/ARDOPC.c:1919-1947 | Four characters become three bytes, and nothing else changes |
| `Packing.UnpackHalf` | ext/ardop1/ARDOPC.c:1949-1981 | Three bytes become four characters, and nothing else changes |
| `Packing.AsciiTo6Bit` | ext/ardop1/ARDOPC.c:1919-1947 | Both halves are packed in place |
| `Packing.Bit6ToAscii` | ext/ardop1/ARDOPC.c:1949-1981 | Both halves are unpacked in place |
| `Packing.CallsignComesBack` | ext/ardop1/ARDOPC.c:1986-2055 | An upper-case callsign that the syntax check accepts survives if and only if it has at most nine characters, and an SSID that is one character other than 0 or a number 10..15, or no SSID and at most six characters |
| `Packing.TenCharactersDoNotFit` | ext/ardop1/ARDOPC.c:632-665 | AB1CDEF-15 passes the syntax check and has a legal SSID, but does not fit the ten-byte copy with its end mark |
| `Packing.DecompressionFits` | ext/ardop1/ARDOPC.c:2036-2055 | On the way back the caller's ten-byte buffer is left if and only if the name has seven characters and the SSID is 10..15 |
| `Packing.SyntaxOfParts` | ext/ardop1/ARDOPC.c:632-665 | The syntax check, for upper-case callsigns, accepts exactly three to seven letters and digits, alone or with a dash and one or two characters that begin with a letter or digit and are no number above 15 |
| `Packing.GridSquareComesBack` | ext/ardop1/ARDOPC.c:2021-2067 | Every upper-case grid square of at most eight characters survives |
| `Fec.SenderStays` | ext/ardop1/FEC.c:164-331 | A poll repeats the block on the air or sends one new block: of the other type of the pair, or of the even type when the mode was just set |
| `Fec.StepKeepsInStep` | ext/ardop1/FEC.c:337-388 | Each loss, bad copy or good copy keeps what is passed on an increasing choice of the blocks sent |
| `Fec.PassedInOrder` | ext/ardop1/FEC.c:46-388 | Over every run of any number of sessions, with the mode and the number of repeats set at any time, the payloads passed to the host are an in-order choice of the blocks sent, each at most once |
| `Fec.EveryBlockIsRepeated` | ext/ardop1/FEC.c:189-328 | In every run, over any number of sessions: a block is played again exactly while that has been asked for fewer times than the repeats that are set, unless the mode was set since; the next block is begun, or the session ends by itself, only after as many repeats as are set, and it ends by itself only with an empty queue |
| `Fec.OneBlockSession` | ext/ardop1/FEC.c:189-328 | For every number of repeats a session of one block plays it once more than that and then ends |
| `Fec.BlocksAreFull` | ext/ardop1/FEC.c:233-238 | A block fills its frame or takes all that is queued |
| `Fec.StopForgetsQueue` | ext/ardop1/FEC.c:171-180 | A stop ends the session at the next poll and nothing queued then is ever sent; what the next session sends begins with its own data, after the last block if that had not been repeated enough |
| `Fec.ModeIsUsed` | ext/ardop1/FEC.c:213-243 | A mode that is set is that of the next block, in its even type |
| `Fec.SettingsAreChecked` | ext/ardop1/HostInterface.c:678-719 | What is no number of repeats from 0 to 5, or no mode, is not set |
| `Fec.BeginIsRefused` | ext/ardop1/FEC.c:46-160 | Without data no session begins, and beginning again does not undo a stop that is pending |
| `Fec.CopiesOfBlock` | ext/ardop1/FEC.c:337-388 | Of any copies of one block, whole or garbled, the block is passed on if and only if one was whole, and once; noise heard after the first whole copy is kept to be reported, noise before it is forgotten |
| `Fec.TypeChangeReports` | ext/ardop1/FEC.c:345-388 | The first frame of another type reports the noise that is left as an error, once |
| `Fec.HearCatchesUp` | ext/ardop1/FEC.c:337-388 | One good copy of the newest block brings a receiver that had all before up to date |
| `Fec.NothingMissed` | ext/ardop1/FEC.c:164-388 | If a copy of each block gets through before the next is begun, every block sent is passed on, the newest possibly excepted, over any number of sessions; a block sent after the mode was set must differ in type or check from the one before |
| `Fec.BlocksAreOffered` | ext/ardop1/FEC.c:293-330 | From any state of a session under way the blocks sent are the queued and then the offered bytes in order, without gap |
| `Fec.EqualBlockCanBeLost` | ext/ardop1/HostInterface.c:678-688 | Setting the mode again between two equal blocks loses the second, though both come through |
| `Fec.FirstPollRepeats` | ext/ardop1/FEC.c:221-328 | The first poll of a later session plays the last block of the session before if and only if the mode has not been set since and more repeats are wanted than were sent of it |
| `Fec.FecSender.StartFEC` | ext/ardop1/FEC.c:46-160 | Begins a session if there is data, and leaves the counters of the session before |
| `Fec.FecSender.SetFECMode` | ext/ardop1/HostInterface.c:678-691 | Accepts exactly the data modes, and clears the count of frames |
| `Fec.FecSender.SendIt` | ext/ardop1/FEC.c:293-330 | Takes a new block off the queue and sends it in the given type |
| `Fec.FecSender.GetNextFECFrame` | ext/ardop1/FEC.c:164-331 | Abort, repeat, next block or end, as in the sender of Fec.EveryBlockIsRepeated, which says how often each block is played |
| `Fec.FecReceiver.ProcessRcvdFECDataFrame` | ext/ardop1/FEC.c:337-388 | Passes on a good block that is not a repeat of the last, keeps a failed one to report when the type changes |
| `Probe.ReturnsOnlyAfterSizeSteps` | src/dict.cpp:129-163 | Modulo a power of two, i -> 5i + 1 is back at its start after n steps if and only if the size divides n |
| `Probe.FullPeriod` | src/dict.cpp:129-163 | From any start every slot is reached within size steps |
| `Probe.PerturbEnds` | src/dict.cpp:129-163 | A 32-bit perturbation is 0 after seven shifts by five |
| `Probe.ProbeCovers` | src/dict.cpp:129-163 | For every hash and every power-of-two size the perturbed probe reaches every slot within (shifts until 0) + size steps |
| `Probe.WrapIsHarmless` | src/dict.cpp:146-149 | For every power-of-two size up to 2^32 the step wrapped at 32 bits and masked is the step of the probe |
| `Dictionary.KeysAreDistinct` | src/dict.cpp:170-221 | No key is in the table twice |
| `Dictionary.SearchDecides` | src/dict.cpp:120-165 | A search ends on the key's slot, with its value, if and only if the key is in the represented map |
| `Dictionary.SearchEnds` | src/dict.cpp:120-165 | With one empty slot every search ends within size plus seven steps |
| `Dictionary.StopIsEarly` | src/dict.cpp:120-165 | On any table of power-of-two size, however it came about, a search that ends does so within size plus seven steps |
| `Dictionary.SearchEndsExactly` | src/dict.cpp:120-165 | On any table of power-of-two size, however it came about, a search ends if and only if some slot is empty or holds the key |
| `Dictionary.FullTableNeverEnds` | src/dict.cpp:146-163 | A search never ends if and only if the table is full and does not hold the key |
| `Dictionary.StaysExactly` | src/dict.cpp:259-269 | A table due to grow is left as it is if and only if deletions have brought four times (above the large limit twice) the used count below its size |
| `Dictionary.PutKeepsTable` | src/dict.cpp:170-221 | Writing where the search ends leaves every key where its own search ends |
| `Dictionary.PutRepresents` | src/dict.cpp:170-221 | Writing where the search ends is the map update |
| `Dictionary.ReinsertedIsMoved` | src/dict.cpp:282-287 | Moving the slots of a searchable table into a larger one ends, and leaves each slot where the search for its key ends |
| `Dictionary.ReinsertEnds` | src/dict.cpp:282-287 | Moving fewer slots than the new table has ends even when the old table is not searchable, and counts at most the slots moved |
| `Dictionary.ResizeKeeps` | src/dict.cpp:245-291 | A searchable table that is due to grow grows at least twofold, represents the same map and is not due to grow again; the fill is the number of entries moved |
| `Dictionary.GrowsAsNeeded` | src/dict.cpp:245-269 | After growing, four times the used count, twice for a table of more than 64000 slots, fits into the table, and no more than twice that is taken; a table in which it fits is left as it is |
| `Dictionary.AddKeeps` | src/dict.cpp:170-221 | As long as nothing has been deleted every add ends, sets the key in the represented map, and keeps the load bound 3 fill < 2 size |
| `Dictionary.GrowthEndsExactly` | src/dict.cpp:259-262 | In 32 bits the doubling ends if and only if the bound is below half the range |
| `Dictionary.WrappedNeverGrows` | src/dict.cpp:251-262 | Once deletions have taken the used count below zero, the wrapped bound is so large that the doubling never ends |
| `Dictionary.ClearingIsSafe` | src/dict.cpp:370-396 | Clearing a slot keeps the table searchable if and only if no other key's probe crosses it |
| `Dictionary.DeleteRemoves` | src/dict.cpp:370-396 | Deleting from a searchable table returns, leaves its size, and the key is not found after it; if no other search crosses the slot the table represents the map without the key |
| `Dictionary.EntriesAreContents` | src/dict.cpp:445-466 | The used slots in order are the represented map, each key once |
| `Dictionary.Dict.constructor` | src/dict.cpp:299-313 | A new dictionary represents the empty map |
| `Dictionary.Dict.Search` | src/dict.cpp:120-165 | On a table of any history the probe loop, if it ends, does so within size plus seven steps, where the search for the key ends; in a searchable table that is the key's only slot or an empty one |
| `Dictionary.Dict.Put` | src/dict.cpp:170-221 | Performs the put step on a table of any history: writes exactly the slot where the search ends, and counts it as filled and used |
| `Dictionary.Dict.NewSize` | src/dict.cpp:245-262 | The table size doubled until it exceeds four (above the large limit two) times the used count |
| `Dictionary.Dict.Resize` | src/dict.cpp:245-291 | Performs the resize step on a table of any history: leaves it alone, or puts every slot in order into the doubled table, with no nested resize |
| `Dictionary.Dict.Add` | src/dict.cpp:170-243 | Performs the add step on a table of any history; while nothing has been deleted it always returns, and the map after it is the map with the key set (an add without value keeps the old value) |
| `Dictionary.Dict.Get` | src/dict.cpp:337-351 | Returns the value in the slot where the search ends, NULL for an empty one, the default only without a key; while nothing has been deleted that is the value in the represented map |
| `Dictionary.Dict.Delete` | src/dict.cpp:370-396 | Performs the delete step on a table of any history: clears the slot where the search ends and decrements the used count with 32-bit wrap, also for an absent key |
| `Dictionary.Dict.Enumerate` | src/dict.cpp:399-420 | Returns the first used slot from a rank on and the rank behind it, or -1 if there is none; the place behind the table is read exactly in those -1 cases whose rank is not negative |
| `Dictionary.Dict.Dump` | src/dict.cpp:445-466 | Walking by ranks yields exactly the map's entries, each once |
| `DictionaryRuns.AddsAreFound` | src/dict.cpp:51-243 | Under the hash of the program every sequence of adds returns, and looking up finds for every key the value last added with it |
| `DictionaryRuns.DeletionCanHideAKey` | src/dict.cpp:370-396 | Add a, add h, delete a: h is still stored and looking it up finds nothing |
| `DictionaryRuns.DeletionsCanFillTheTable` | src/dict.cpp:170-396 | Add a to e, delete z five times, add f, delete z, add g, delete z, add h: all eight slots are full, and looking up, adding or deleting any other key never returns |
| `DictionaryRuns.DeletionsCanStopGrowth` | src/dict.cpp:245-396 | Add a to e, delete z seven times, add f: the doubling for the new table never ends |

## Left out

- The IRC server around the modem and the dictionary (commands, routing, wire protocol, rigs, bots), the GUI, audio, serial, sockets, GPIO, databases, logging and hamlib.
- Radio signal processing: filters, Goertzel, leader search, envelope correlation, frame-type decoding, symbol timing and phase tracking. The link model receives a frame type and blocks that pass or fail; the symbol model receives phases and magnitudes.
- Reed-Solomon parity and repair, which are parameters restricted only in the length of what they return. In the link model a block whose check passes is taken to be the block sent.
- In the ARQ model: call-sign matching, session identifiers, listening and busy detection, ID frames and ID timers, PING, packet frame types, FEC reception while disconnected, LEDs and status texts, repeat intervals, statistics, and the 32-bit wrap of the millisecond clock. The outcome of bandwidth negotiation is an input; its fall-through for 1000MAX is not modelled.
- In the link: more than two stations, a call to a station that is still in an earlier session or made while a frame is on the air, and host purge commands in mid-transfer. A station that begins to transmit while a frame is on its way to it misses that frame, and its own may then be lost or heard. A timer that runs out, or an ABORT, while a station transmits takes effect afterwards.
- ArqClass.Arq.SendData: the ID frame sent every ten minutes is left out.
- ArqClass.Arq.RcvDISC: the match of the called sign, the listen flag, the rejection of a busy station and PING are left out; so are they in ArqClass.Arq.RcvIRSConAck.
- ArqClass.Arq.RcvIRSConAck: the match of the called sign and the listen flag are left out.
- ArqClass.Arq.RcvIRSData: the ID frame sent after END is left out, as in ArqClass.Arq.RcvIDLE and ArqClass.Arq.RcvISSData.
- ArqClass.Arq.RcvIDLE: the ID frame sent after END is left out.
- ArqClass.Arq.RcvISSData: the ID frame sent after END is left out.
- ArqClass.Arq.ProcessNewFrame: the FEC protocol mode, packet frames and the monitoring of others' frames while disconnected are left out.
- ArqClass.Arq.GetNextARQFrame: the repeating of PING while disconnected is left out.
- ArqClass.Arq.CheckSendTimeout: the ID frame sent ahead of the DISC is left out.
- ArqClass.Arq.SendARQConnectRequest: the early return for a callsign that cannot be encoded is left out.
- ArqClass.ReceiverBox.Demodulate: whether a block passes its check is an input; Reception.DecoderServesStation says what it is in terms of the carrier decoder.
- A substate of IRSConAck in ISS cannot be reached; its branch is modelled as written but no run gets there.
- The averaged retry of PSK memory ARQ, which sums soft values over copies.
- Progress.QueueArrives: counts each clean attempt as a frame of the smallest mode, whatever the mode is then; it says nothing about transfers during which the receiver breaks in or either side asks to disconnect; after them see Resume.TurnArrives and Calls.HangUpEnds.
- Progress.LinkTurns: covers the turnover whose three frames come through; with lost ones it is Resume.TurnArrives.
- Resume.TurnArrives: says what happens to the queue of the station that asks; what the other one has queued in the middle of a transfer is discarded by the turnover, as in the code.
- Calls.CallTransfersDespiteLosses: whether a frame decodes is an input, and a clean attempt is taken to decode whatever frame it carries; what the call answers is not a rejection. The caller has something to send; one with an empty queue idles once it is confirmed.
- Silence.DeadPeerEnds: counts turns that come late enough for what is being waited for; how long a turn takes is not modelled.
- Fft.FourierTransform: exact real arithmetic, so no rounding; the sines are parameters that satisfy the half-angle relations; sizes up to 2^16, since only bits 0..16 are looked at; squaring the base once more than needed in the power loop is not modelled as overflow.
- Psk.Decode1Car4Psk: states the frame's bytes; the loop runs one group past the frame and what that writes behind it is not specified. The same holds of Psk.Decode1Car8Psk and Psk.Decode1CarQam. The circle is 6284 mrad as in the code.
- Carriers.EncodePskData: the encoder tests for more than a block's length with one comparison and the FSK encoder with another; both give the same blocks, so one is modelled.
- Kiss.Modem.GetNextFrame: a FEND straight after FESC is counted by the receiver but not as a frame end, and the stream theorems do not cover such input; session background work, control frames' effects, acknowledged sending and the SCS side's polling are left out. What happens after the ring has been left is not defined.
- Scs.EmUnstuff: one byte behind the message is read, as in the code, so the buffer is required to be that long. Terminal mode, channels, and what is done with an accepted frame are left out.
- Dictionary.Dict.Add: blobs, time stamps, failure of memory allocation and freeing are not modelled; keys are values under an arbitrary 32-bit hash, in DictionaryRuns the one of the program over signed bytes; the marker for deleted slots is never stored by the code, so branches on it are left out; tables beyond 2^32 slots, and the wrap of the two counters upwards, are not considered.
- Dictionary.Dict.Delete: gives the new table and counts, not a map, because a cleared slot may hide other keys; ClearingIsSafe says exactly when it does not.
- Packing.CallsignComesBack: lower-case callsigns, which do not fit six bits, and ones the syntax check refuses; names of fewer than three characters, whose padding the code leaves unset, and texts of ten or more, which lose their end mark, have no defined result.
- Scs.CrcStuffAndSend: None stands for a write behind a buffer, after which nothing is defined.
- Fec.FecSender.GetNextFECFrame: the ID frame every ten minutes and the PING branch are left out.
- Fec.NothingMissed: periodic ID frames, PING, ARQ traffic between broadcast sessions, and the number of copies of a block, which the repeat timer can raise by one, are left out. The callsign check before a session begins is taken to pass.
