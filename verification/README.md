# A verified model of the congestion controllers and datagram protocols of sing-quic

The library carries proxy protocols (Hysteria, Hysteria 2, TUIC) over QUIC, and brings its own
congestion control. This project models four connected parts of it in Dafny and proves what they
do over whole runs. `dafny verify dfyconfig.toml` checks everything.

**The BBR stack** of `congestion_meta2` is a tower of mutable objects. A growable ring buffer
(`RingBuffer.dfy`) refines a sequence; the packet-number-indexed queue over it (`PacketQueue.dfy`,
`QueueHistory.dfy`) refines a finite map; the bandwidth sampler over that (`BandwidthSampler.dfy`,
`SamplerTraces.dfy`) and the windowed filter (`WindowedFilter.dfy`) feed the sender
(`BbrSender.dfy`). Each object is proved to take the steps of a functional model (`BbrModel.dfy` for
the sender), and the theorems are about every event and every run of that model: the joint invariant
of modes, gains, windows and recovery (`BbrInvariants.dfy`, `BbrTraces.dfy`), when rounds and
recoveries start and end (`BbrTraces.dfy`), which mode an event leads to (`BbrModes.dfy`), the phases
in time (`BbrPhases.dfy`, `BbrCycle.dfy`), by how much windows and pacing rate move (`BbrLimits.dfy`,
`BbrTargets.dfy`), what the estimates and counters mean (`BbrEstimates.dfy`), the termination of
STARTUP with the exact condition that ends it (`BbrStartup.dfy`), what an event reports and samples
(`SamplerReports.dfy`, `BbrReports.dfy`), and the estimates against the sends and acks of the run
(`BbrRates.dfy`). `BbrFrames.dfy` says what each step of an event touches, and `BbrScenarios.dfy`
holds concrete runs.

**CUBIC and NewReno** of `congestion_meta1` (`Cubic.dfy`, `CubicExact.dfy`, `CubicSender.dfy`,
`CubicGrowth.dfy`) are fixed-point integer arithmetic. The central theorem is that only losses and
timeouts shrink the window, with the exact condition for a single ack in any state; beside it stand
exactly how acks, losses and timeouts move the window, one reduction per loss event (section 3.2 of
RFC 6582), bounded windows while the datagram size is raised, and the fixed-point curve as the cubic
of section 4.2 of RFC 9438. `ConservingSampler.dfy` is the sampler of the same package, which
forgets packets as they are acknowledged or lost, and conserves bytes; `SamplerAgreement.dfy` proves
that it draws the same samples as the one of `congestion_meta2`.

**Datagrams**: QUIC variable-length integers (`Varint.dfy`, section 16 of RFC 9000), framed TCP
requests and responses (`TcpFraming.dfy`), and UDP messages that are split, encoded, sent through a
network that reorders and duplicates, decoded and put together again (`UdpFragments.dfy`,
`UdpReassembly.dfy`, `HysteriaUdp.dfy`, `TuicUdp.dfy`).

**The Brutal sender and its pacer** (`Brutal.dfy`, `Pacer.dfy`, `BrutalTraces.dfy`): a token bucket
with a long-run rate bound and an exact wait, five reused slots that are an exact count of the last
five seconds, and both together over runs of the sender.

`Arithmetic.dfy`, `Bytes.dfy` and `Wrappers.dfy` hold what these share.

## Assumptions

Times are nanoseconds or, in Brutal, Unix seconds; 0 is the unset time. Packet numbers, bytes and
times are mathematical integers, gains and factors exact reals; division and conversion round as the
source's do. Runs of the senders assume of their environment: packet numbers of sends strictly
increase, a congestion event is never empty, only packets already sent are acknowledged or lost, and
0 < minimum <= initial <= maximum window. Where times matter, the theorem says what it needs: rounds,
seconds or event times that do not go back, and for CUBIC the sum of event time and minimum round
trip. For hypotheses that are not obvious, a lemma beside the theorem shows a state in which it fails
without them, or the theorem is an equivalence.

## Where the code and its comments differ

The model follows the code.

- The sender's comment has recovery end after a round without losses; an event that carries losses
  but no acknowledgements is not counted, and a recovery can end on an ack of a packet sent before
  its losses were reported (`LossOnlyIsForgottenIff`, `SomeRecoveryEndsEarly`).
- The event handler's comment takes the send state of the largest acknowledged packet if there is
  one. The sampler passes over acks without a sample and losses that are not tracked, and lets a
  lost packet win when the last entry of the list of losses is larger (`EventReports`);
  `OvertakenAckIsNotReported` is a run, and `DocumentedIsReportedAtIff` the exact condition.
- The sampler of `congestion_meta2` does not forget packets when they are acknowledged or lost: a
  second acknowledgement counts again until the packet is removed as obsolete
  (`SecondAckCountsIff`). Conservation is proved of the sampler of `congestion_meta1`.
- The bandwidth estimate is documented in bytes per second and held in bits per second.
- CUBIC's window can shrink on an ack only when the minimum round trip has dropped by more than the
  time since the last one, or after a raised datagram size has lifted the window within an epoch;
  `AckShrinksIff` is the exact condition, `AckShrinksWindow` and `AckShrinksLiftedWindow` are runs.
- With no bandwidth sample at all, STARTUP counts every round as growth, without end
  (`UnknownBandwidthStallsStartup`).

## Model

| member | source | states |
|---|---|---|
| `RingBuffers.RingBuffer.Init` | congestion_meta2/ringbuffer.go:12-14 | A buffer of any initial size, zero included, starts without elements. |
| `RingBuffers.RingBuffer.Len` | congestion_meta2/ringbuffer.go:17-25 | The number of elements, from the positions and the full flag alone, whether or not they wrap round. |
| `RingBuffers.RingBuffer.Empty` | congestion_meta2/ringbuffer.go:28-30 | True exactly when there are no elements. |
| `RingBuffers.RingBuffer.PushBack` | congestion_meta2/ringbuffer.go:34-46 | The element becomes the last one and all others keep their order, through wrap-around and through a reallocation when the buffer is full or has no slots. |
| `RingBuffers.RingBuffer.PopFront` | congestion_meta2/ringbuffer.go:51-63 | Takes the oldest element and keeps the rest in order; the vacated slot holds the zero value again (part of `Valid`). |
| `RingBuffers.RingBuffer.Offset` | congestion_meta2/ringbuffer.go:69-75 | The element with that many older ones, wherever the ring stores it. |
| `RingBuffers.RingBuffer.SetOffset` | congestion_meta2/ringbuffer.go:69-75 | A store through the pointer that `Offset` returns changes that element and no other. |
| `RingBuffers.RingBuffer.Front` | congestion_meta2/ringbuffer.go:80-85 | The oldest element. |
| `RingBuffers.RingBuffer.Back` | congestion_meta2/ringbuffer.go:90-95 | The newest element. |
| `RingBuffers.RingBuffer.Unwrapped` | congestion_meta2/ringbuffer.go:99-109 | The copy that growing makes: the elements from the head on, then those before it, then zero values. |
| `RingBuffers.RingBuffer.Grow` | congestion_meta2/ringbuffer.go:99-109 | Reallocation unwraps the ring without losing or reordering an element, and leaves room for one more. |
| `RingBuffers.RingBuffer.Clear` | congestion_meta2/ringbuffer.go:112-118 | No elements are left, and every slot of the unchanged backing store holds the zero value. |
| `PacketQueues.PacketNumberIndexedQueue.constructor` | congestion_meta2/packet_number_indexed_queue.go:40-48 | A new queue is the empty map. |
| `PacketQueues.PacketNumberIndexedQueue.Emplace` | congestion_meta2/packet_number_indexed_queue.go:54-88 | Takes an entry exactly when the number is valid, and the queue is empty or the number is above the last one inserted since it was; then the map gains exactly that entry, whatever the gap, and otherwise nothing changes. |
| `PacketQueues.PacketNumberIndexedQueue.GetEntry` | congestion_meta2/packet_number_indexed_queue.go:92-99 | A lookup in the finite map the deque stands for: present entries are found, holes and numbers outside are not. |
| `PacketQueues.PacketNumberIndexedQueue.IndexOf` | congestion_meta2/packet_number_indexed_queue.go:179-197 | A slot index is found exactly for live packet numbers. |
| `PacketQueues.PacketNumberIndexedQueue.Remove` | congestion_meta2/packet_number_indexed_queue.go:103-119 | Deletes exactly this packet from the map and hands out what it was; removing the front also drops the holes behind it. |
| `PacketQueues.PacketNumberIndexedQueue.RemoveUpTo` | congestion_meta2/packet_number_indexed_queue.go:124-135 | The map keeps exactly the entries numbered at least the argument. |
| `PacketQueues.PacketNumberIndexedQueue.IsEmpty` | congestion_meta2/packet_number_indexed_queue.go:138-140 | The counter is zero exactly when the map is empty and the first packet is invalid. |
| `PacketQueues.PacketNumberIndexedQueue.NumberOfPresentEntries` | congestion_meta2/packet_number_indexed_queue.go:143-145 | The counter is the size of the map. |
| `PacketQueues.PacketNumberIndexedQueue.LastPacket` | congestion_meta2/packet_number_indexed_queue.go:161-167 | The number of the last entry inserted since the queue was last empty, even when that entry has been removed. |
| `PacketQueues.PacketNumberIndexedQueue.Clearup` | congestion_meta2/packet_number_indexed_queue.go:169-177 | From any deque with a correct counter: afterwards the front slot is present or the deque is empty with an invalid first packet, and the map has not changed. |
| `PacketQueues.CountIsLive` | congestion_meta2/packet_number_indexed_queue.go:143-145 | The number of present slots is the number of keys of the map the slots stand for. |
| `PacketQueues.EmptyLive` | congestion_meta2/packet_number_indexed_queue.go:138-140 | With a present front slot, no slots, a zero count and an empty map are the same thing. |
| `QueueHistory.LiveIsInsertedAndKept` | congestion_meta2/packet_number_indexed_queue.go:54-139 | After any sequence of insertions and removals, `GetEntry(p)` finds an entry if and only if some accepted insertion of p has not been removed since, and it finds the one inserted then. |
| `QueueHistory.LastIsHighest` | congestion_meta2/packet_number_indexed_queue.go:54-88 | No live entry is numbered above the last number, so an accepted number is never one that is live; the last number is invalid exactly when nothing is live. |
| `QueueHistory.LastIsLatestInsertion` | congestion_meta2/packet_number_indexed_queue.go:54-88 | The threshold that insertions must pass is the number of the latest accepted insertion, and the queue has not been empty since. |
| `WindowedFilters.WindowedFilter.constructor` | congestion_meta2/windowed_filter.go:75-81 | Three unset estimates and the window length. |
| `WindowedFilters.WindowedFilter.SetWindowLength` | congestion_meta2/windowed_filter.go:84-86 | Only the window length changes. |
| `WindowedFilters.WindowedFilter.GetBest` | congestion_meta2/windowed_filter.go:88-90 | The best estimate. |
| `WindowedFilters.WindowedFilter.Update` | congestion_meta2/windowed_filter.go:102-151 | The array, updated in place with its early returns and shifts, ends up as the functional update does, about which the lemmas below are proved. |
| `WindowedFilters.WindowedFilter.Reset` | congestion_meta2/windowed_filter.go:154-158 | All three estimates are the new sample. |
| `WindowedFilters.WindowedFilter.Clear` | congestion_meta2/windowed_filter.go:160-162 | All three estimates are unset; the window length stays. |
| `WindowedFilters.EstimatesAreSuffixMaxima` | congestion_meta2/windowed_filter.go:102-158 | For every history whose times do not go back, the three estimates are records of it, in order of arrival, each the maximum of all samples from its own record on, and the best record is no older than the window. |
| `WindowedFilters.UpdateKeepsSuffixMaxima` | congestion_meta2/windowed_filter.go:102-151 | The same as a step: any estimates that are suffix maxima are so after an update with a sample no earlier than the history. |
| `WindowedFilters.BestBounds` | congestion_meta2/windowed_filter.go:88-151 | The best estimate is at least the newest sample, and is itself a sample of the current window, so at most the true windowed maximum. |
| `WindowedFilters.PeakIsRetained` | congestion_meta2/windowed_filter.go:102-151 | A sample that was a new best on arrival bounds the best estimate from below until a whole window has passed. |
| `WindowedFilters.RunnerUpIsRetained` | congestion_meta2/windowed_filter.go:120-150 | What the second best is for: after the last peak (a new best on arrival, all later samples smaller), the largest sample more than a quarter of a window later bounds the filter from below until it is a window old itself, also once the peak has expired. |
| `WindowedFilters.ThirdIsRetained` | congestion_meta2/windowed_filter.go:120-150 | What the third best is for: with the peak still in the window, the largest sample more than half a window after that runner-up does the same, also once both have expired. |
| `WindowedFilters.ThirdIsForgotten` | congestion_meta2/windowed_filter.go:120-150 | That the peak is still in the window is needed: seven samples after which the filter reports 5 for a window that holds such a third sample of 40. |
| `BandwidthSamplers.BandwidthSampler.constructor` | congestion_meta2/bandwidth_sampler.go:498-510 | A new sampler has sent nothing, tracks nothing and is in no app-limited phase. |
| `BandwidthSamplers.BandwidthSampler.OnPacketSent` | congestion_meta2/bandwidth_sampler.go:553-595 | The sampler object, over its packet queue, takes the modelled step: totals, a new epoch when the pipe was empty, and a snapshot of the totals under the packet number. |
| `BandwidthSamplers.BandwidthSampler.OnPacketLost` | congestion_meta2/bandwidth_sampler.go:676-682 | The lost bytes are counted, the send state of a tracked packet is returned, and the packet stays tracked. |
| `BandwidthSamplers.BandwidthSampler.OnAppLimited` | congestion_meta2/bandwidth_sampler.go:690-693 | The phase is (re)opened and its end is the last packet sent. |
| `BandwidthSamplers.BandwidthSampler.RemoveObsoletePackets` | congestion_meta2/bandwidth_sampler.go:695-702 | Exactly the snapshots below the number are forgotten. |
| `BandwidthSamplers.BandwidthSampler.OnPacketAcknowledged` | congestion_meta2/bandwidth_sampler.go:761-831 | The object takes the modelled step for tracked and untracked packets; `SampleIsSmallerSlope` says exactly which rate and round trip the step samples. |
| `BandwidthSamplers.BandwidthSampler.OnCongestionEvent` | congestion_meta2/bandwidth_sampler.go:597-674 | Losses then acks, in order, become one event sample: the largest bandwidth with its app-limited flag, the least round trip, and one of two send states, that of the last ack with a sample or of the last tracked loss; `SamplerReports` says which. |
| `BandwidthSamplers.SentKeepsWellFormed` | congestion_meta2/bandwidth_sampler.go:553-595 | A send with a higher packet number keeps every snapshot ordered: sent at last ack, then its total sent, then the current total; and the packet is tracked. |
| `BandwidthSamplers.AckedKeepsWellFormed` | congestion_meta2/bandwidth_sampler.go:761-831 | An ack of any packet, tracked or not, keeps every snapshot ordered. |
| `BandwidthSamplers.OthersKeepWellFormed` | congestion_meta2/bandwidth_sampler.go:676-702 | App-limited calls, losses and removals keep every snapshot ordered. |
| `BandwidthSamplers.AckAll` | congestion_meta2/bandwidth_sampler.go:633-652 | Acks of one event, in sequence: each of them finds ordered snapshots, so each slope has a non-negative rise, and leaves them ordered. |
| `BandwidthSamplers.CongestionEvent` | congestion_meta2/bandwidth_sampler.go:597-674 | The same for a whole event with its losses. |
| `BandwidthSamplers.SampleBelowBothSlopes` | congestion_meta2/bandwidth_sampler.go:761-831 | The sampled bandwidth, over the time of either slope, makes no more than the bytes of that slope, rounding included. |
| `BandwidthSamplers.SampleIsSmallerSlope` | congestion_meta2/bandwidth_sampler.go:761-831 | A sample's rate is exactly the smaller of its two slopes, in whole bytes per second rounded down (of the acked slope alone if no time passed between the sends), and its round trip the time since the packet's own send. |
| `SamplerReports.EventReports` | congestion_meta2/bandwidth_sampler.go:597-663 | Told from the records before the event: it reports the send state of the last acked packet whose ack yields a sample, or of the last tracked lost one; where there are both, the last entries of the two lists decide, tracked or not. |
| `SamplerReports.AckedStateIsReportedIff` | congestion_meta2/bandwidth_sampler.go:649-663 | With acks, the event reports what the acks report if and only if no lost packet is tracked, or some ack yields a sample and the last lost number is no larger than the last acked one, or the two states agree. |
| `SamplerReports.DocumentedIsReportedIff` | congestion_meta2/bandwidth_sampler.go:649-663 | When different packets have different records and the largest acked packet is not also lost, the event reports the state of the packet that the handler's comment names if and only if that packet's ack yields a sample and no tracked loss overtakes it, or neither it nor any other packet has a state to report. |
| `SamplerReports.LossesReport` | congestion_meta2/bandwidth_sampler.go:609-614 | The loop over losses keeps the state of the last tracked one, and none if there is none. |
| `SamplerReports.AcksReport` | congestion_meta2/bandwidth_sampler.go:625-647 | The loop over acks keeps the state of the last one that yields a sample, and leaves the records alone. |
| `SamplerReports.AcksSample` | congestion_meta2/bandwidth_sampler.go:625-647 | The sample of an event, told from the records before it: the least non-zero time since the send of a packet whose ack yields a sample, and the largest rate of such acks, each exactly the smaller of the packet's slopes, with the app-limited mark of the first ack to reach it; none without such acks. |
| `SamplerReports.AcksCount` | congestion_meta2/bandwidth_sampler.go:761-777 | The acked total grows by the sizes of the tracked packets among the acks, ack by ack. |
| `SamplerReports.LastSampled` | congestion_meta2/bandwidth_sampler.go:625-631 | The last position of an ack that yields a sample: none after it does. |
| `SamplerReports.LastTracked` | congestion_meta2/bandwidth_sampler.go:609-614 | The last position of a tracked loss: none after it is. |
| `SamplerTraces.Run` | congestion_meta2/bandwidth_sampler.go:307-327 | In every state reachable by sends with increasing numbers, acks, losses, app-limited calls and removals, all slopes are well formed. |
| `SamplerTraces.FlagIsPhase` | congestion_meta2/bandwidth_sampler.go:378-410 | The sampler's flag is up if and only if there has been an app-limited call and, since the most recent one, no tracked packet sent after it has been acknowledged. |
| `SamplerTraces.MarkedIffSentInPhase` | congestion_meta2/bandwidth_sampler.go:378-410 | A tracked packet is marked app-limited if and only if it was sent inside such a phase. |
| `SamplerTraces.LastAckedIs` | congestion_meta2/bandwidth_sampler.go:761-764 | The last acknowledged packet is the one of the latest ack, tracked or not. |
| `SamplerTraces.FlagSinceCall` | congestion_meta2/bandwidth_sampler.go:778-788 | Since the latest call, the end marker is the last packet sent before it, and the flag is down exactly if an ack of a later tracked packet has been seen. |
| `SamplerTraces.TrackedWasSent` | congestion_meta2/bandwidth_sampler.go:553-595 | Every tracked packet was sent by some operation, and carries its size and the flag as it was just before. |
| `SamplerTraces.TrackedUntilObsolete` | congestion_meta2/bandwidth_sampler.go:676-702 | A tracked packet stays tracked, acknowledged or lost, exactly until a removal makes it obsolete. |
| `SamplerTraces.SecondAckCountsIff` | congestion_meta2/bandwidth_sampler.go:761-831 | The second of two acks of a packet counts its bytes again if and only if no removal in between has made it obsolete. |
| `SamplerTraces.AckedBytesWereSent` | congestion_meta2/bandwidth_sampler.go:761-831 | Without repeated acks, the acked total is at most the bytes of sent and acked packets, and so at most the sent total. |
| `SamplerTraces.TwiceAckedExceedsSent` | congestion_meta2/bandwidth_sampler.go:761-831 | A concrete run where a packet acked twice makes the acked total exceed the sent one. |
| `BbrSenders.BbrSender.constructor` | congestion_meta2/bbr_sender.go:256-301 | A new sender is in STARTUP with the high gains, over an empty filter and a new sampler. |
| `BbrSenders.BbrSender.GetCongestionWindow` | congestion_meta2/bbr_sender.go:386-396 | The window in force: the minimum in PROBE_RTT, the smaller of the two windows in recovery, else the stored one. |
| `BbrSenders.BbrSender.CanSend` | congestion_meta2/bbr_sender.go:338-340 | Sending is allowed exactly below the window in force. |
| `BbrSenders.BbrSender.BandwidthEstimate` | congestion_meta2/bbr_sender.go:543-545 | The estimate is the best one of the windowed filter. |
| `BbrSenders.BbrSender.GetMinRtt` | congestion_meta2/bbr_sender.go:560-573 | The estimate, or the connection's minimum, or 100 milliseconds. |
| `BbrSenders.BbrSender.GetTargetCongestionWindow` | congestion_meta2/bbr_sender.go:576-586 | Gain times the bandwidth-delay product, or times the initial window when that is zero, but at least the minimum. |
| `BbrSenders.BbrSender.OnPacketSent` | congestion_meta2/bbr_sender.go:318-335 | The whole stack of sender and sampler takes the modelled step of a send. |
| `BbrSenders.BbrSender.SetMaxDatagramSize` | congestion_meta2/bbr_sender.go:363-373 | Only the datagram size changes: a window at its minimum stays there. |
| `BbrSenders.BbrSender.MaybeAppLimited` | congestion_meta2/bbr_sender.go:701-711 | The sampler is told of an app-limited phase exactly when the flight leaves the window unused, and nothing else changes. |
| `BbrSenders.BbrSender.UpdateBytesInFlight` | congestion_meta2/bbr_sender.go:416-423 | The flight is the prior one without the bytes of all acks and losses of the event. |
| `BbrSenders.BbrSender.UpdateRoundTripCounter` | congestion_meta2/bbr_sender.go:632-639 | The counter advances exactly on an ack beyond the end of the round, which moves to the last packet sent. |
| `BbrSenders.BbrSender.UpdateRecoveryState` | congestion_meta2/bbr_sender.go:771-804 | The recovery machine takes its step, with the fall-through from conservation to the exit test. |
| `BbrSenders.BbrSender.MaybeUpdateMinRtt` | congestion_meta2/bbr_sender.go:593-602 | The estimate is replaced when expired, beaten or unset, and the expiry is reported. |
| `BbrSenders.BbrSender.UpdateGainCyclePhase` | congestion_meta2/bbr_sender.go:642-674 | The cycle advances to the next phase, or stays, by time, flight and losses. |
| `BbrSenders.BbrSender.CheckIfFullBandwidthReached` | congestion_meta2/bbr_sender.go:678-699 | A growth by a quarter restarts the count of stalled rounds; the third stalled one, or heavy loss, declares full bandwidth. |
| `BbrSenders.BbrSender.ShouldExitStartupDueToLoss` | congestion_meta2/bbr_sender.go:912-926 | The loss test of STARTUP, over the counters of the round. |
| `BbrSenders.BbrSender.EnterStartupMode` | congestion_meta2/bbr_sender.go:605-610 | Mode and both gains of STARTUP. |
| `BbrSenders.BbrSender.EnterProbeBandwidthMode` | congestion_meta2/bbr_sender.go:613-628 | Mode and gains of PROBE_BW, at the drawn phase of the cycle. |
| `BbrSenders.BbrSender.MaybeExitStartupOrDrain` | congestion_meta2/bbr_sender.go:715-725 | STARTUP to DRAIN to PROBE_BW, possibly both in one event. |
| `BbrSenders.BbrSender.MaybeEnterOrExitProbeRtt` | congestion_meta2/bbr_sender.go:728-767 | Entering, scheduling and leaving PROBE_RTT, with the sampler told of the app-limited phase while it lasts. |
| `BbrSenders.BbrSender.CalculatePacingRate` | congestion_meta2/bbr_sender.go:807-844 | The pacing rate is recomputed, or left alone without an estimate. |
| `BbrSenders.BbrSender.CalculateCongestionWindow` | congestion_meta2/bbr_sender.go:847-877 | The window is recomputed and clamped, except in PROBE_RTT. |
| `BbrSenders.BbrSender.CalculateRecoveryWindow` | congestion_meta2/bbr_sender.go:880-909 | The recovery window is set up or adjusted, in recovery only. |
| `BbrSenders.BbrSender.OnCongestionEventEx` | congestion_meta2/bbr_sender.go:402-502 | The mutable object, with its filter array and sampler queue, ends every event in the state of the functional model; all theorems about runs are about that model. |
| `BbrModel.CycleOffset` | congestion_meta2/bbr_sender.go:618-624 | Every draw gives an offset below 8 other than 1, so that the drain phase never comes first. |
| `BbrInvariants.EventKeepsInvariant` | congestion_meta2/bbr_sender.go:402-502 | Every event keeps the joint invariant: STARTUP is before full bandwidth, DRAIN, PROBE_BW and recovery are after it, gains match the mode (in PROBE_BW the cycle entry at an offset below 8), windows are in bounds, round and recovery markers have been sent, bandwidths are whole bytes, the sampler is well formed. It never undoes full bandwidth, before full bandwidth lowers neither window nor pacing rate, grows the window by at most the bytes acked, and in recovery admits at least the bytes acked. |
| `BbrInvariants.SendKeepsInvariant` | congestion_meta2/bbr_sender.go:318-335 | So does every send with a higher packet number. |
| `BbrInvariants.SendWindowInBounds` | congestion_meta2/bbr_sender.go:386-396 | Under the invariant the window that the send check sees is within its bounds in every mode and recovery state. |
| `BbrInvariants.AccountKeeps` | congestion_meta2/bbr_sender.go:416-429 | The flight count, round and recovery steps keep it, except that the recovery window may be unset until the end of the event. |
| `BbrInvariants.ChangeModesKeeps` | congestion_meta2/bbr_sender.go:455-470 | The PROBE_BW, full-bandwidth and STARTUP/DRAIN steps restore the agreement of mode, gains and flag, and touch no window, rate or marker. |
| `BbrInvariants.ProbeRttKeeps` | congestion_meta2/bbr_sender.go:728-767 | So do the PROBE_RTT steps, whichever way it is left. |
| `BbrInvariants.CongestionWindowKeeps` | congestion_meta2/bbr_sender.go:847-877 | The window stays in bounds, grows by at most the bytes acked, and does not shrink before full bandwidth. |
| `BbrInvariants.RecoveryWindowKeeps` | congestion_meta2/bbr_sender.go:880-909 | A recovery window that may be 0 inside the event is at least the minimum window, and the flight with the bytes acked, after it. |
| `BbrInvariants.RecalculateKeeps` | congestion_meta2/bbr_sender.go:475-482 | The three recomputed limits together. |
| `BbrInvariants.SampledEventFacts` | congestion_meta2/bbr_sender.go:431-453 | What the sender relies on in the sampler's report: totals do not go back, and every bandwidth is a whole number of bytes per second. |
| `BbrFrames.EventIsItsSteps` | congestion_meta2/bbr_sender.go:402-502 | The event handler is the sequence of its steps, with what each passes to the next, down to the app-limited call that PROBE_RTT makes. |
| `BbrFrames.AccountOnly` | congestion_meta2/bbr_sender.go:416-429 | The first steps of an event set the flight, and what belongs to the round and the recovery; the round advances by at most one. |
| `BbrFrames.ChangeModesOnly` | congestion_meta2/bbr_sender.go:455-470 | The mode steps count the losses, and set the watch on the bandwidth, the mode, the gains and the cycle, and nothing else. |
| `BbrFrames.ProbeRttOnly` | congestion_meta2/bbr_sender.go:728-767 | The PROBE_RTT step sets the mode with its gains, its schedule, the cycle and the time stamp of the estimate, and nothing else. |
| `BbrFrames.LimitsOnly` | congestion_meta2/bbr_sender.go:475-482 | Recomputing the limits changes the pacing rate and the two windows, and no other part of the sender. |
| `BbrTraces.Run` | congestion_meta2/bbr_sender.go:402-502 | Every state reachable by any run of sends, events and datagram sizes satisfies the joint invariant. |
| `BbrTraces.WindowAlwaysInBounds` | congestion_meta2/bbr_sender.go:386-396 | In every run the window in force stays between the minimum and the maximum, although the recovery window is 0 inside an event. |
| `BbrTraces.FullBandwidthIsKept` | congestion_meta2/bbr_sender.go:678-699 | Once reached, full bandwidth holds for the rest of the run. |
| `BbrTraces.OneFlightPerRound` | congestion_meta2/bbr_sender.go:632-639 | The ack that advances the round counter is for a packet sent after any earlier event that advanced it or started a recovery. |
| `BbrTraces.RecoveryOutlastsLosses` | congestion_meta2/bbr_sender.go:771-804 | Recovery ends only on an ack of a packet sent after every earlier event with both acks and losses. |
| `BbrTraces.ConservationLastsAFlight` | congestion_meta2/bbr_sender.go:783-796 | Recovery moves from conservation to growth only on an ack of a packet sent after it started. |
| `BbrTraces.AccountMarkers` | congestion_meta2/bbr_sender.go:771-804 | How one event moves the markers of round and recovery, exactly: to the last packet sent at a new round or a new recovery, and at full bandwidth with acks and losses; otherwise not at all. Recovery starts if and only if acks come with losses at full bandwidth, in conservation; it turns to growth at the next new round; and it ends if and only if acks beyond its marker come without losses. |
| `BbrTraces.StepMarkers` | congestion_meta2/bbr_sender.go:771-804 | The same for each action of a run. |
| `BbrTraces.RoundStartsIff` | congestion_meta2/bbr_sender.go:632-639 | In every run a round starts if and only if an event acknowledges last a packet sent after the last event that started a round or a recovery. |
| `BbrTraces.LossOnlyEventsDoNotExtendRecovery` | congestion_meta2/bbr_sender.go:425-429 | An event with losses and no acks leaves recovery and its end as they were. |
| `BbrTraces.LossOnlyIsForgottenIff` | congestion_meta2/bbr_sender.go:777-803 | Where code and comment differ, exactly: after a loss-only event in recovery, some next ack of a packet sent before it ends the recovery if and only if something had been sent since the end marker was set. |
| `BbrTraces.RecoveryOutlastsCoveredLosses` | congestion_meta2/bbr_sender.go:777-803 | When nothing had been sent since, the recovery outlasts the loss-only event as well: it ends only on an ack of a packet sent later. |
| `BbrPhases.EventTakesPhaseStep` | congestion_meta2/bbr_sender.go:613-674 | One event enters the drain phase of the cycle from the probing phase only, schedules the end of PROBE_RTT once, with a small flight, and leaves PROBE_RTT only at that time and after a round. |
| `BbrPhases.DrainFollowsProbing` | congestion_meta2/bbr_sender.go:618-624 | In every run a PROBE_BW pacing gain below 1 follows a gain of 1.25 (or 0.75) in PROBE_BW, never another phase or mode. |
| `BbrPhases.ProbeRttLasts` | congestion_meta2/bbr_sender.go:742-762 | When PROBE_RTT ends, the flight had come down to the minimum window and a packet at least 200 milliseconds before, a round has started since, and the mode was PROBE_RTT all the time. |
| `BbrCycle.GainPhaseLasts` | congestion_meta2/bbr_sender.go:642-674 | In every run, a phase of the PROBE_BW cycle that an event ends was started by an earlier event and lasted more than a minimum round trip, unless it is the drain phase and its flight has come down to the bandwidth-delay product; and a probing phase has met losses or reached a flight of five fourths of the product. |
| `BbrCycle.EventTakesCycleStep` | congestion_meta2/bbr_sender.go:642-674 | An event moves PROBE_BW on by one phase exactly when the phase ends by the rule of its kind (probing, draining, cruising), judged with the estimates after the event, and otherwise leaves phase and clock alone. |
| `BbrCycle.PhaseWasStarted` | congestion_meta2/bbr_sender.go:613-628 | The clock of a running phase is the time of the event that started it, by entering PROBE_BW or ending the phase before. |
| `BbrEstimates.EstimateIsWindowedMaximum` | congestion_meta2/bbr_sender.go:437-445 | In every run the bandwidth estimate is a sample fed to the filter at most ten rounds before the newest one, and none fed since is larger. It is at least the largest sample more than two rounds after the last peak, and at least the largest more than five rounds after that one (with the peak within ten rounds), while these are at most ten rounds old. |
| `BbrEstimates.FilterIsRunOnHistory` | congestion_meta2/bbr_sender.go:437-445 | Sender and filter together: the filter in the stack is the filter run on the samples that qualified, with rounds that never go back. |
| `BbrEstimates.MinRttIsLeastSince` | congestion_meta2/bbr_sender.go:593-602 | In every run a known round-trip estimate is the sample of some event, and no event since has sampled less. |
| `BbrEstimates.MinRttUnknownIff` | congestion_meta2/bbr_sender.go:560-573 | The estimate is unknown exactly as long as no event has sampled a round trip. |
| `BbrEstimates.RttIsFresh` | congestion_meta2/bbr_sender.go:593-602 | In every run, after an event that samples a round trip the estimate is at most ten seconds old. |
| `BbrEstimates.ProbeRttIsSpaced` | congestion_meta2/bbr_sender.go:728-767 | With event times that do not go back, PROBE_RTT is not entered again within ten seconds of leaving it. |
| `BbrEstimates.CountersCount` | congestion_meta2/bbr_sender.go:455-458 | In every run the round counter is the number of rounds started, and the loss counters are the loss events and lost bytes since the last one. |
| `BbrEstimates.EventReads` | congestion_meta2/bbr_sender.go:402-502 | One event's effect on the counters, the round-trip estimate (replaced exactly when unknown, larger than the sample or over ten seconds old), its stamp (renewed with it, and on leaving PROBE_RTT) and the filter, across all the steps of the handler. |
| `BbrTargets.TargetIsAim` | congestion_meta2/bbr_sender.go:560-587 | Every target of the sender, at a gain of at least one, is the gain times the bandwidth-delay product, or times the initial window while the product is no whole byte, and at least the minimum window. |
| `BbrTargets.BdpIsProduct` | congestion_meta2/bbr_sender.go:928-930 | The product divided in two steps is the exact one, rounded once, for every sign. |
| `BbrLimits.EventMovesLimits` | congestion_meta2/bbr_sender.go:475-482 | How an event moves window, recovery window, pacing rate and flight, exactly, from the states before and after. The window: not in PROBE_RTT; before full bandwidth by exactly the bytes acked (up to the maximum) if and only if it was below twice the bandwidth-delay product or less than the initial window has been acked in all; at full bandwidth so, up to that product and the ack height. The recovery window: set up with flight and acked bytes, lowered by the bytes lost, raised by the bytes acked in growth, and never below the minimum or flight and acked bytes. The pacing rate: the initial window over the connection's round trip first, then the larger of itself and gain times estimate, and at full bandwidth gain times estimate. |
| `BbrLimits.LimitsFollowEstimates` | congestion_meta2/bbr_sender.go:475-482 | So after every event at full bandwidth, the pacing rate is the gain of the phase the event led to times the new estimate if that is positive; and outside PROBE_RTT the window is at most twice the bandwidth-delay product plus the ack height, also while the round trip is unknown. |
| `BbrLimits.StartupWindow` | congestion_meta2/bbr_sender.go:847-877 | In every run, until full bandwidth and until an initial window of bytes has been acknowledged, the window is the initial one and the bytes acknowledged outside PROBE_RTT, up to the maximum. |
| `BbrLimits.AllAckedOutsideProbeRtt` | congestion_meta2/bbr_sender.go:847-877 | Without a PROBE_RTT so far those are all the bytes acknowledged. |
| `BbrLimits.FlightAfterAction` | congestion_meta2/bbr_sender.go:415-424 | In every run the flight is the one that the last send or event reported, less the bytes that event acknowledged and lost. |
| `BbrLimits.SumsAdd` | congestion_meta2/bbr_sender.go:418-420 | The acknowledged bytes of an event add up over its packets. |
| `BbrLimits.LostSumsAdd` | congestion_meta2/bbr_sender.go:421-423 | So do the lost ones. |
| `BbrLimits.SendWindow` | congestion_meta2/bbr_sender.go:386-395 | The window that the send check uses is the minimum in PROBE_RTT; otherwise it is at most the congestion window and, in recovery, at most the recovery window, and it is one of them. |
| `BbrModes.EventTakesModeStep` | congestion_meta2/bbr_sender.go:701-767 | The mode that an event leads to, exactly: STARTUP until full bandwidth, then DRAIN until the flight is at most one bandwidth-delay product (which may be at once), then PROBE_BW; PROBE_RTT interrupts any of them and leads back to PROBE_BW or, before full bandwidth, to STARTUP. Its schedule: 200 milliseconds from the first event with a small flight, and a round after that. |
| `BbrModes.DrainEndsIff` | congestion_meta2/bbr_sender.go:715-767 | An event in DRAIN leads to PROBE_BW if and only if the flight is at most one bandwidth-delay product and PROBE_RTT is not entered; and PROBE_RTT is entered if and only if the event samples a round trip, the estimate has expired, and the sender is not leaving quiescence. |
| `BbrModes.EventLimitsApp` | congestion_meta2/bbr_sender.go:701-713 | An event opens an app-limited phase up to the last packet sent if and only if the flight leaves the window unused (in DRAIN half of it, or more than ten datagrams) or PROBE_RTT is running; others leave the phase's end alone and open none. |
| `BbrModes.IsAppLimitedIff` | congestion_meta2/bbr_sender.go:701-713 | The source's test is that one. |
| `BbrModes.QuiescenceIs` | congestion_meta2/bbr_sender.go:318-336 | In every run the sender is leaving quiescence if and only if a packet was sent into an empty pipe and no event has come since. |
| `BbrModes.OffsetsAreDrawn` | congestion_meta2/bbr_sender.go:613-630 | Each cycle offset but 1 is drawn by exactly one of seven remainders. |
| `BbrModes.GainsOfModes` | congestion_meta2/bbr_sender.go:605-630 | The pacing gain of every mode and every phase of PROBE_BW, in every state that keeps the invariant: 2.885, its reciprocal, 1, and 1.25, 0.75 or 1. |
| `BbrStartup.StartupTerminates` | congestion_meta2/bbr_sender.go:678-699 | If the judged estimates stay below 4 * 2^n bits per second, a run judges the bandwidth at most 12 n + 6 times before it is declared full, not counting judgements that find neither an estimate nor a reference. |
| `BbrStartup.WhenBandwidthIsFull` | congestion_meta2/bbr_sender.go:678-699 | Full bandwidth is declared by exactly those actions whose judgement stalls (below five fourths of the reference) for the third time in a row, or stalls while the round has eight loss events that lost over a fiftieth of the flight of the reported send state (`BbrReports.HeavyLossIsOfReported` says whose). |
| `BbrStartup.StallsAreCounted` | congestion_meta2/bbr_sender.go:694-696 | The counter is the number of latest judgements in a row that stalled. |
| `BbrStartup.ExitsByHeavyLoss` | congestion_meta2/bbr_sender.go:912-926 | The scaled and truncated loss test is the exact one: at least eight events and more than a fiftieth of the flight. |
| `BbrStartup.EventJudges` | congestion_meta2/bbr_sender.go:465-468 | An event changes what STARTUP watches only if it starts a round before full bandwidth with a sample that is not app-limited, and then by the verdict on the filter's new estimate. |
| `BbrStartup.JudgementsAreSpent` | congestion_meta2/bbr_sender.go:678-699 | Each judgement lowers the measure on the distance to the bound and the stalled rounds left, unless it finds neither an estimate nor a reference, and then it changes nothing. |
| `BbrStartup.GrowthTargetIs` | congestion_meta2/bbr_sender.go:683-684 | The growth target is five fourths of the reference, rounded down. |
| `BbrStartup.GrowthsAreLogarithmic` | congestion_meta2/bbr_sender.go:683-693 | Four growths at least double the reference, so their number is logarithmic in the bound. |
| `BbrReports.ReportIsOfItsSend` | congestion_meta2/bbr_sender.go:431-453 | In every run, the send state that an event adapts to is the state of the connection when the reported packet was sent, with that packet in flight; it is invalid exactly when no packet is reported. |
| `BbrReports.HeavyLossIsOfReported` | congestion_meta2/bbr_sender.go:912-926 | The loss test of STARTUP in a run: eight loss events in the round that lost over a fiftieth of the flight that the reported packet was sent into, that packet included; it fails without a reported packet. |
| `BbrReports.FlagIsOfReported` | congestion_meta2/bbr_sender.go:433-436 | After an event the app-limited flag says whether the sampler was in an app-limited phase when the reported packet was sent, and one that was not is remembered; an event without one changes neither. |
| `BbrReports.DocumentedIsReportedAtIff` | congestion_meta2/bbr_sender.go:409-412 | In every run without empty packets, at an event that does not also lose its largest acked packet: it adapts to the state of the packet that the comment names exactly under the condition of `SamplerReports.DocumentedIsReportedIff`. |
| `BbrReports.OvertakenAckIsNotReported` | congestion_meta2/bbr_sender.go:409-412 | Two runs from the start that the comment is wrong about: packet 1 acked and 3 lost adapts to packet 3; with an ack of the untracked packet 5 beside it, to packet 1. |
| `BbrReports.EventOnly` | congestion_meta2/bbr_sender.go:402-502 | An event leaves the sent total and the remaining records, adds to the acked total, and moves the start of the next slopes only to a tracked packet that it acknowledges. |
| `BbrReports.TrackedWasSent` | congestion_meta2/bandwidth_sampler.go:553-595 | In every run of the sender, a tracked packet was sent, and its record is the one made then, whatever acks, losses and removals came since. |
| `BbrReports.EventDropsRecords` | congestion_meta2/bandwidth_sampler.go:695-702 | An event drops exactly the records more than two below the last packet acknowledged, or without acks those up to the last packet lost; it makes and changes none. |
| `BbrReports.RecordsAreDistinct` | congestion_meta2/bandwidth_sampler.go:584-594 | When no tracked packet is empty, different packets have different send states. |
| `BbrReports.TotalsGrow` | congestion_meta2/bandwidth_sampler.go:553-595 | The sent and acked totals never go back in a run. |
| `BbrRates.EstimateHasSlopes` | congestion_meta2/bbr_sender.go:437-445 | In every run a positive bandwidth estimate is exactly the smaller of two rates that the run carried: of the bytes acknowledged from some action up to an ack of an event, and of the bytes sent from some send up to the send of that ack's packet; the event is at most ten rounds older than the newest sample. |
| `BbrRates.HistoryIsOfEvents` | congestion_meta2/bbr_sender.go:437-445 | Every sample that the filter was fed is the best one of an event of the run. |
| `BbrRates.EventRtt` | congestion_meta2/bbr_sender.go:447-449 | In every run the round trip that an event samples is the least non-zero time since the send action of a packet whose ack yields a sample, and there is none if and only if no packet gives one. |
| `BbrRates.MinRttIsOfPacket` | congestion_meta2/bbr_sender.go:593-602 | In every run a known round-trip estimate is the time from the send action of some packet to its ack, and no packet acknowledged by that event or since has given less. |
| `BbrRates.EventSlopes` | congestion_meta2/bandwidth_sampler.go:761-831 | The best sample of an event, if positive, is exactly such a rate, and no ack of the event yields a larger one. |
| `BbrRates.AnchorWasSet` | congestion_meta2/bandwidth_sampler.go:570-583 | In every run a slope starts at an action: at the ack of a packet that was sent, with the sent total just after it, or at a send into an empty pipe; and nothing has been counted as acknowledged since. |
| `BbrRates.SampledSample` | congestion_meta2/bandwidth_sampler.go:625-647 | What `SamplerReports.AcksSample` says holds of the sample of every event of the sender, app-limited calls and losses included. |
| `BbrScenarios.UnknownBandwidthStallsStartup` | congestion_meta2/bbr_sender.go:683-691 | Those judgements are without limit: for every n there is a run, of ack-only packets acknowledged in turn, with n judgements, that is still in STARTUP. |
| `BbrScenarios.FourSteadyRounds` | congestion_meta2/bbr_sender.go:678-699 | Full bandwidth is reached: a run of four packets at a steady rate declares it. |
| `BbrScenarios.RecoveryCanEndEarly` | congestion_meta2/bbr_sender.go:777-803 | Every run at full bandwidth has a continuation that reports a loss in an event without acks and ends its recovery on the next ack, of a packet sent before the report. |
| `BbrScenarios.SomeRecoveryEndsEarly` | congestion_meta2/bbr_sender.go:777-803 | So there is such a run: the code ends a recovery that its comment would not. |
| `Cubics.AckNeverShrinks` | congestion_meta1/cubic.go:146-208 | An ack returns a window at least as large as the current one, if event time plus minimum round trip does not go back; and it hands on what the next ack needs. |
| `Cubics.AckKeepsWindowIff` | congestion_meta1/cubic.go:146-208 | Exactly when an ack keeps the window, told from the state it finds: outside an epoch always; inside one, if and only if the Reno estimate grows to the window, or the time since the epoch, with the minimum round trip, has come to the least time at which the curve reaches it. |
| `Cubics.CurveReachesIff` | congestion_meta1/cubic.go:172-187 | That time in closed form, by a cube root: the curve is at least the window from it on and never before. |
| `Cubics.ShrinksWhenRttDrops` | congestion_meta1/cubic.go:146-208 | Two acks of one packet each, a millisecond apart, shrink a window of 32 packets while the minimum round trip falls from a second to 20 milliseconds: the hypothesis on time is needed. |
| `Cubics.CurveMonotone` | congestion_meta1/cubic.go:172-187 | The truncated, shifted cubic never falls as time passes, on both sides of its origin. |
| `Cubics.CurveThroughOrigin` | congestion_meta1/cubic.go:172-187 | The curve is at most its origin before the time to the origin and at least it after. |
| `Cubics.DipWithinDistance` | congestion_meta1/cubic.go:158-167 | For the truncated cube root K, (410 * K^3 * mds) >> 40 is at most the distance to the last maximum. |
| `Cubics.CurveStartsAtWindow` | congestion_meta1/cubic.go:154-187 | The curve of an epoch never goes below the window the epoch started with. |
| `Cubics.CoveredLater` | congestion_meta1/cubic.go:172-187 | What covers the window at one time covers it at every later one. |
| `Cubics.UncoveredWindowFalls` | congestion_meta1/cubic.go:146-208 | That the window is covered is needed too: an epoch that starts at 2504 bytes does not keep a window of 3000. |
| `Cubics.DeltaIsCubic` | congestion_meta1/cubic.go:19-25 | The fixed-point delta is C t^3 of section 4.2 of RFC 9438, with C = 410/1024 segments per cubed second, rounded down to bytes. |
| `Cubics.CubeRoot` | congestion_meta1/cubic.go:164 | The floor cube root: its cube does not exceed the argument, the next one does. |
| `Cubics.RenoGrowthBound` | congestion_meta1/cubic.go:191-196 | For one connection, an ack of at most the estimate grows the Reno estimate by at most one segment. |
| `Cubics.Beta` | congestion_meta1/cubic.go:97-103 | The backoff factor lies strictly between 0 and 1 for any number of connections. |
| `Cubics.BetaLastMax` | congestion_meta1/cubic.go:105-111 | So does the one for the last maximum. |
| `Cubics.Cubic.constructor` | congestion_meta1/cubic.go:69-87 | A new curve has no epoch and one connection. |
| `Cubics.Cubic.Reset` | congestion_meta1/cubic.go:79-87 | The state of a new curve. |
| `Cubics.Cubic.OnApplicationLimited` | congestion_meta1/cubic.go:115-125 | The epoch is closed, and nothing else changes. |
| `Cubics.Cubic.CongestionWindowAfterPacketLoss` | congestion_meta1/cubic.go:130-140 | The object takes the modelled step of a loss: remembered maximum, closed epoch, window cut by the backoff factor. |
| `Cubics.Cubic.CongestionWindowAfterAck` | congestion_meta1/cubic.go:146-208 | The object takes the modelled step of an ack, about which the lemmas above are proved. |
| `CubicSenders.OnlyLossesAndTimeoutsShrinkWindow` | congestion_meta1/cubic_sender.go:174-318 | In every run with times that go forward, an action that shrinks the window is a loss or a timeout: slow start, Reno and CUBIC acks never do, nor does a raised datagram size. The one exception is an ack in a CUBIC epoch in which a raised datagram size has lifted the window from its exact minimum. |
| `CubicSenders.AckShrinksIff` | congestion_meta1/cubic_sender.go:174-250 | For any single ack, whatever the times: it shrinks the window if and only if it reaches CUBIC (outside recovery and slow start, window in use and below its maximum) and CUBIC does not keep the window. |
| `CubicSenders.AckShrinksLiftedWindow` | congestion_meta1/cubic_sender.go:216-318 | The exception is real: a run with times that go forward in which the size is raised from 1252 to 1500 bytes, the window goes from 2504 to 3000, and the next ack takes it back to 2504. |
| `CubicSenders.AckShrinksWindow` | congestion_meta1/cubic_sender.go:174-250 | A run from the start (a full initial window, exit from slow start, two acks) whose last ack shrinks the window, with event times that go forward and sums with the minimum round trip that do not. |
| `CubicSenders.OneReductionPerLossEvent` | congestion_meta1/cubic_sender.go:190-212 | With no timeout in between, a loss that reduces the window again is of a packet sent after the previous reduction (section 3.2 of RFC 6582). |
| `CubicSenders.WindowAlwaysInBounds` | congestion_meta1/cubic_sender.go:174-318 | In every run, with CUBIC as with Reno, the window is at least 2 datagrams of the first size and below 20001 of the current one, which is the first one plus all raises. |
| `CubicSenders.ResizedReachesMinimumIff` | congestion_meta1/cubic_sender.go:308-318 | Raising the datagram size leaves the window at the new minimum or above if and only if it was exactly at the old one or already that large. |
| `CubicSenders.BelowMinimumSinceRaise` | congestion_meta1/cubic_sender.go:190-318 | In every run a window (or an epoch's Reno estimate) below the current minimum is left over from a smaller datagram size: there has been a raise, and since then no loss has cut the window back and no timeout restarted it. |
| `CubicSenders.MinimumStep` | congestion_meta1/cubic_sender.go:134-318 | Reductions and restarts lead to the current minimum or above, and every other action but a raise stays there. |
| `CubicSenders.IncreaseBounds` | congestion_meta1/cubic_sender.go:216-250 | Growth keeps any lower bound of window and Reno estimate, and the upper bound of the window. |
| `CubicSenders.ApplyKeepsInvariant` | congestion_meta1/cubic_sender.go:134-285 | Every operation keeps the bounds, the order of the markers and a usable Reno estimate. |
| `CubicSenders.CutbackStep` | congestion_meta1/cubic_sender.go:190-212 | The marker of the last reduction moves back on timeouts only, jumps to the largest sent packet at a reduction, and a loss below it changes nothing. |
| `CubicSenders.ActionCovers` | congestion_meta1/cubic_sender.go:174-318 | Every action but a lift keeps the window covered by the current epoch's curve or estimate, across losses, timeouts, app-limited periods and the exit from slow start. |
| `CubicSenders.RunCovers` | congestion_meta1/cubic_sender.go:174-318 | In every state of every run the window is covered, or has been lifted in the open epoch. |
| `CubicSenders.Run` | congestion_meta1/cubic_sender.go:134-285 | Every reachable state satisfies the invariant. |
| `CubicSenders.CubicSender.constructor` | congestion_meta1/cubic_sender.go:83-111 | A new sender has the initial window and the largest threshold. |
| `CubicSenders.CubicSender.OnPacketSent` | congestion_meta1/cubic_sender.go:134-147 | The largest sent number follows retransmittable packets only. |
| `CubicSenders.CubicSender.MaybeExitSlowStart` | congestion_meta1/cubic_sender.go:165-172 | On advice, in slow start, the threshold comes down to the window. |
| `CubicSenders.CubicSender.OnPacketAcked` | congestion_meta1/cubic_sender.go:174-188 | The sender object takes the modelled step; in recovery the window is left alone. |
| `CubicSenders.CubicSender.MaybeIncreaseCwnd` | congestion_meta1/cubic_sender.go:216-250 | Application-limited, at the maximum, slow start, Reno, CUBIC: the modelled case each time. |
| `CubicSenders.CubicSender.IsLimitedByWindow` | congestion_meta1/cubic_sender.go:252-260 | Whether the flight uses the window. |
| `CubicSenders.CubicSender.OnCongestionEvent` | congestion_meta1/cubic_sender.go:190-212 | The sender object takes the modelled step of a loss. |
| `CubicSenders.CubicSender.SetMaxDatagramSize` | congestion_meta1/cubic_sender.go:308-318 | The sender object takes the modelled step: a window at its exact minimum moves to the new one, any other is kept. |
| `CubicSenders.CubicSender.OnRetransmissionTimeout` | congestion_meta1/cubic_sender.go:276-285 | The reduction marker is forgotten; with retransmitted packets the window restarts at its minimum. |
| `CubicExact.FactorsAre` | congestion_meta1/cubic.go:97-111 | The two backoff factors of n connections, times n, are 0.3 and 0.15 short of n. |
| `CubicExact.LossIsExact` | congestion_meta1/cubic.go:130-140 | A loss leaves (10 n - 3) / 10 n of the window, rounded down, remembers the window, or (20 n - 3) / 20 n of it if it had not come within a packet of the maximum remembered before, and closes the epoch. |
| `CubicExact.AckTakesEpochStep` | congestion_meta1/cubic.go:146-208 | What an ack makes of the epoch: outside one, it opens one at the event time whose curve returns to the larger of window and remembered maximum after the floored cube root of their distance; inside one it leaves the curve alone; the acked bytes are used up, and the Reno estimate grows by 9 n^2 / (20 n - 3) segments per window of them, rounded down. |
| `CubicExact.AckReachesIff` | congestion_meta1/cubic.go:146-208 | The window after an ack, exactly: it reaches a number of bytes if and only if the Reno estimate does, or half of the acked bytes allow it and the time since the epoch has come to the least one at which the curve reaches it. |
| `CubicExact.RenoGrowthIs` | congestion_meta1/cubic.go:89-95 | The growth of the Reno estimate, in integers. |
| `CubicExact.ElapsedIs` | congestion_meta1/cubic.go:169-172 | The time since the epoch in 1/1024 of a second, from whole microseconds, rounded down. |
| `CubicGrowth.AckMovesWindow` | congestion_meta1/cubic_sender.go:174-250 | How an ack moves the window, exactly: not if nothing sent after the last cut has been acknowledged, the window is unused or at its maximum; by one datagram in slow start; in Reno by one datagram when a window of packets has been counted; with CUBIC to CUBIC's window, up to the maximum. An ack that finds the window unused closes CUBIC's epoch. |
| `CubicGrowth.SlowStartGrows` | congestion_meta1/cubic_sender.go:233-236 | Over any stretch of such acks in slow start the window grows by a datagram for each. |
| `CubicGrowth.RenoGrows` | congestion_meta1/cubic_sender.go:239-246 | Over any stretch of such acks in Reno's congestion avoidance the window stays until as many packets have been counted as it holds datagrams, and then grows by one datagram. |
| `CubicGrowth.AdviceEndsSlowStart` | congestion_meta1/cubic_sender.go:165-172 | On advice slow start is left at the window it has come to, and nothing else changes. |
| `CubicGrowth.LossCutsWindow` | congestion_meta1/cubic_sender.go:190-212 | A loss of a packet sent after the last cut leaves seven tenths of the window (of n connections, (10 n - 3) / 10 n with CUBIC), rounded down and at least the minimum, as window and threshold; other losses leave the sender as it is. |
| `CubicGrowth.TimeoutRestarts` | congestion_meta1/cubic_sender.go:276-285 | A timeout that retransmits leaves two datagrams, half of the old window as threshold, and a cleared CUBIC; every timeout forgets the last cut, so that the next loss cuts again. |
| `CubicGrowth.NextEpochAimsAt` | congestion_meta1/cubic_sender.go:190-250 | In every run, after a loss that cuts CUBIC's window and no further cut or restart, the next epoch's curve returns to the window before the loss, or to (20 n - 3) / 20 n of it if the old maximum had not been reached, or to its first window if larger. |
| `CubicGrowth.LimitedIffInUse` | congestion_meta1/cubic_sender.go:252-260 | The window is in use if and only if the flight is within three datagrams of it, or in slow start more than half of it. |
| `ConservingSamplers.BytesAreConserved` | congestion_meta1/bandwidth_sampler.go:195-310 | After any operations with fresh packet numbers: bytes sent = bytes acked + bytes lost + bytes of the tracked packets. |
| `ConservingSamplers.Run` | congestion_meta1/bandwidth_sampler.go:195-310 | In every reachable state the totals of each tracked snapshot are in order and no larger than the current ones, so both slopes have a non-negative rise; a positive run is checked by the code. |
| `ConservingSamplers.SampleBelowBothSlopes` | congestion_meta1/bandwidth_sampler.go:239-295 | The sampled bandwidth, over the time of either slope, makes no more than the bytes of that slope, rounding included. |
| `ConservingSamplers.SampleIsSmallerSlope` | congestion_meta1/bandwidth_sampler.go:239-295 | There is a sample if and only if something was acknowledged before the send and time has passed since; then its rate is exactly the smaller of the two slopes, and its round trip the time since the packet's own send. |
| `ConservingSamplers.AckAndLossKeepWellFormed` | congestion_meta1/bandwidth_sampler.go:225-310 | Acks and losses keep every snapshot ordered. |
| `ConservingSamplers.TrackedIsOutstanding` | congestion_meta1/bandwidth_sampler.go:337-356 | A packet is tracked if and only if it was sent with data and has since been neither acked nor lost, and with the size it was sent with. |
| `ConservingSamplers.SendConservesIff` | congestion_meta1/bandwidth_sampler.go:195-220 | A send keeps the balance if and only if it is without data, or its number is not tracked, or it is empty: a reused number loses its bytes. |
| `ConservingSamplers.AckAndLossConserve` | congestion_meta1/bandwidth_sampler.go:225-310 | Acks and losses keep the balance, and a second ack or loss of the same packet, in either order, changes nothing. |
| `ConservingSamplers.BandwidthSampler.OnPacketSent` | congestion_meta1/bandwidth_sampler.go:195-220 | The object takes the modelled step of a send. |
| `ConservingSamplers.BandwidthSampler.Insert` | congestion_meta1/bandwidth_sampler.go:337-344 | An entry that is there already is kept. |
| `ConservingSamplers.BandwidthSampler.OnPacketAcked` | congestion_meta1/bandwidth_sampler.go:225-295 | Totals, anchors, app-limited flag, tracking and the returned sample (the smaller slope, or none) after an ack, as modelled. |
| `ConservingSamplers.BandwidthSampler.OnCongestionEvent` | congestion_meta1/bandwidth_sampler.go:299-310 | Totals and tracking after a loss, and the send state handed back, as modelled. |
| `ConservingSamplers.BandwidthSampler.OnAppLimited` | congestion_meta1/bandwidth_sampler.go:315-318 | The phase is opened up to the last packet sent. |
| `SamplerAgreement.SamplersAgree` | congestion_meta1/bandwidth_sampler.go:195-335 | The two packages' samplers, on the same sends with increasing numbers, reports of each packet at most once and app-limited calls after the first send, keep the same totals, slope starts and flag, and the same records of the packets still outstanding. |
| `SamplerAgreement.SamplesAgree` | congestion_meta1/bandwidth_sampler.go:225-295 | And an ack draws the same sample from both: rate, round trip, validity and app-limited mark. |
| `SamplerAgreement.EarlyLimitDiffers` | congestion_meta1/bandwidth_sampler.go:315-320 | An app-limited call before the first send tells them apart: only the newer sampler leaves the phase with packet 0. |
| `Pacers.LongRunRate` | hysteria/congestion/pacer.go:32-80 | For guarded sends at a bandwidth that stays at or below a maximum, the bytes between any two sends, inclusive, are at most the maximum burst at the first plus that bandwidth times the time elapsed, for all the per-step rounding and all changes of the datagram size. |
| `Pacers.StretchIsEarned` | hysteria/congestion/pacer.go:32-51 | The same for a bandwidth that changes from send to send: bytes sent and tokens left were earned at the bandwidth of each interval. |
| `Pacers.WaitIsExact` | hysteria/congestion/pacer.go:62-76 | The budget covers a datagram at exactly the times from the rounded-up wait on: the wait is sound, and the least one. |
| `Pacers.BudgetIsEarned` | hysteria/congestion/pacer.go:42-51 | The budget reaches a number of bytes if and only if the maximum burst does and, unless nothing was sent yet, what was left and what the time since has earned do. |
| `Pacers.NegativeBudgetIsFull` | hysteria/congestion/pacer.go:42-51 | A clock that has gone back until the count of tokens is negative gives a full burst. |
| `Pacers.NextSendIsFirst` | hysteria/congestion/pacer.go:62-76 | When the budget is short, the announced time is the first at which it covers a datagram and the least delay has passed. |
| `Pacers.NextSendHasBudget` | hysteria/congestion/pacer.go:62-76 | At the announced time, and ever after, the budget covers a datagram. |
| `Pacers.GuardedSendSpends` | hysteria/congestion/pacer.go:32-40 | A guarded send takes its bytes out of the tokens added since the last. |
| `Pacers.UnguardedSendIsForgiven` | hysteria/congestion/pacer.go:32-40 | The guard is needed: a send beyond the budget leaves the same state as one of exactly the budget. |
| `Pacers.MaxBurst` | hysteria/congestion/pacer.go:53-58 | The least whole number of bytes that covers ten datagrams, and four milliseconds of bandwidth rounded down. |
| `Pacers.Budget` | hysteria/congestion/pacer.go:42-51 | Never more than the maximum burst. |
| `Pacers.Pacer.constructor` | hysteria/congestion/pacer.go:23-30 | A new pacer has ten initial datagrams of tokens and has sent nothing. |
| `Pacers.Pacer.BudgetAt` | hysteria/congestion/pacer.go:42-51 | The object computes the modelled budget. |
| `Pacers.Pacer.SentPacket` | hysteria/congestion/pacer.go:32-40 | The object takes the modelled step of a send. |
| `Pacers.Pacer.TimeUntilSend` | hysteria/congestion/pacer.go:62-76 | The object computes the modelled time. |
| `Pacers.Pacer.SetMaxDatagramSize` | hysteria/congestion/pacer.go:78-80 | Only the datagram size changes. |
| `Brutals.FiveSlotsAreExact` | hysteria/congestion/brutal.go:98-156 | For every history with seconds that do not go back, the ack and loss totals used at second T are those of all events in seconds T-4 to T. |
| `Brutals.SlotsExact` | hysteria/congestion/brutal.go:98-111 | Each slot, reused by remainder, counts exactly the events of its own second, the latest with its remainder. |
| `Brutals.SlotContributes` | hysteria/congestion/brutal.go:121-156 | The age test lets each slot contribute the events of the one second of the window it stands for, and nothing stale. |
| `Brutals.AckRate` | hysteria/congestion/brutal.go:141-156 | With fewer than fifty packets one; otherwise the rate times all packets is the acked ones, or the rate is three fifths where that is less. |
| `Brutals.PacerBandwidth` | hysteria/congestion/brutal.go:42-54 | The configured rate over the ack rate, rounded down: between the configured rate and five thirds of it. |
| `Brutals.BrutalSender.constructor` | hysteria/congestion/brutal.go:42-54 | A new sender has empty slots and a new pacer. |
| `Brutals.BrutalSender.GetBandwidth` | hysteria/congestion/brutal.go:42-54 | The callback's bandwidth is within those bounds for the current ack rate. |
| `Brutals.BrutalSender.HasPacingBudget` | hysteria/congestion/brutal.go:64-66 | The guard of a send: the pacer's budget covers a datagram. |
| `Brutals.BrutalSender.OnPacketSent` | hysteria/congestion/brutal.go:80-84 | The pacer takes its step at the bandwidth of the moment. |
| `Brutals.BrutalSender.SetMaxDatagramSize` | hysteria/congestion/brutal.go:113-119 | Sender and pacer keep the same datagram size. |
| `Brutals.BrutalSender.OnCongestionEventEx` | hysteria/congestion/brutal.go:98-111 | The slot array is updated in place for the event's second, and the ack rate is that of the slots not older than five seconds. |
| `Brutals.BrutalSender.UpdateAckRate` | hysteria/congestion/brutal.go:121-156 | The loop over the slots, with its skip, yields the rate of the totals. |
| `BrutalTraces.SendsAreEarned` | hysteria/congestion/brutal.go:64-156 | In every run that respects the pacing budget, with events, sends and changes of the datagram size in any order, the bytes between any two sends are at most one burst plus what the time between earns: at each send, the configured rate over the ack rate of all events of the last five seconds. |
| `BrutalTraces.BrutalLongRunRate` | hysteria/congestion/brutal.go:64-156 | Whatever the losses, that is at most one burst plus five thirds of the configured rate times the time elapsed. |
| `BrutalTraces.RateIsExact` | hysteria/congestion/brutal.go:98-156 | In every run the ack rate in use is that of all events in seconds T-4 to T, for the last event in second T. |
| `BrutalTraces.RateIsShare` | hysteria/congestion/brutal.go:98-156 | In every run the ack rate times all packets of seconds T-4 to T is those acknowledged, or three fifths where that is less, or one for fewer than fifty packets. |
| `BrutalTraces.BandwidthMakesUpForLosses` | hysteria/congestion/brutal.go:42-156 | In every run the acknowledged share of the bandwidth in use is the configured rate, to within a byte. |
| `BrutalTraces.PacerFollows` | hysteria/congestion/brutal.go:42-84 | In every run the pacer has seen exactly the run's sends, at those rates and with the datagram size in force. |
| `Varints.RoundTrip` | hysteria2/internal/protocol/proxy.go:254-283 | For every number below 2^62, whatever follows, the decoder of section 16 of RFC 9000 recovers it and consumes exactly its encoding. |
| `Varints.EncodingIsShortest` | hysteria2/internal/protocol/proxy.go:254-283 | No byte string that decodes to a number is shorter than its encoding. |
| `Varints.VarintPut` | hysteria2/internal/protocol/proxy.go:254-283 | The bytes written at the offset are that encoding, their number is returned, and the rest of the buffer is untouched. |
| `Varints.EncodedBytes` | hysteria2/internal/protocol/proxy.go:254-283 | The shifts, masks and tag bits of all four cases are the big-endian tagged number. |
| `Varints.ReadVarint` | hysteria2/internal/protocol/proxy.go:223-237 | The stream reader agrees with the decoder, on values, on what is left, and on truncated input. |
| `Varints.ReadBytes` | hysteria2/internal/protocol/proxy.go:223-237 | What the reader makes of any bytes, shortest encoding or not: the two high bits of the first byte give the length, the other bits the number; without enough bytes there is none. |
| `TcpFraming.RequestRoundTrip` | hysteria2/internal/protocol/proxy.go:39-85 | After the frame type, reading a written request gives the address and leaves exactly the payload if and only if the address is 1 to 2048 bytes long and the padding at most 4096; otherwise the length is reported invalid. |
| `TcpFraming.ShortRequest` | hysteria2/internal/protocol/proxy.go:69-92 | A request byte by byte, for an address and a padding below 64 bytes: 0x4401, then each with its length, then the payload. |
| `TcpFraming.ShortResponse` | hysteria2/internal/protocol/proxy.go:131-160 | A response byte by byte, for a message and a padding below 64 bytes: status 0 for success, then each with its length, then the payload. |
| `TcpFraming.ResponseRoundTrip` | hysteria2/internal/protocol/proxy.go:94-151 | Reading a written response gives status and message, cut at 2048 bytes, and leaves the payload, if and only if the padding is at most 4096 bytes; otherwise the length is reported invalid. |
| `TcpFraming.VStringRoundTrip` | hysteria2/internal/protocol/proxy.go:223-245 | A written string is read back, and nothing more, exactly when its length is within the reader's bounds. |
| `TcpFraming.WriteTCPRequest` | hysteria2/internal/protocol/proxy.go:69-85 | The buffer of precomputed size is filled exactly, with frame type, address, padding and payload. |
| `TcpFraming.WriteTCPResponse` | hysteria2/internal/protocol/proxy.go:131-151 | The same for status, cut message, padding and payload. |
| `TcpFraming.ReadVString` | hysteria2/internal/protocol/proxy.go:223-237 | The stream reader agrees with the parser: value and rest, or its error. |
| `TcpFraming.ReadTCPRequest` | hysteria2/internal/protocol/proxy.go:39-67 | The same for a request, whose padding is skipped. |
| `TcpFraming.ReadTCPResponse` | hysteria2/internal/protocol/proxy.go:94-129 | The same for a response. |
| `Bytes.BigEndianRoundTrip` | hysteria2/packet.go:70-81 | Fixed-width big-endian fields are read back. |
| `UdpFragments.FragUDPMessage` | hysteria2/packet.go:87-116 | The splitting loop and the numbering loop produce the pieces of the payload in order, each with its number and the total. |
| `UdpFragments.PiecesFacts` | hysteria2/packet.go:87-116 | The pieces are as long as the limit but for the last, which is neither empty nor longer; there are at least two when the payload exceeds the limit, and together they are the payload. |
| `UdpFragments.UdpDefragger.Feed` | hysteria2/packet.go:349-398 | The packet map and the output after a fragment are those of the modelled step, malformed and repeated fragments included. |
| `UdpFragments.UdpDefragger.AssembleSlots` | hysteria2/packet.go:371-397 | The payloads of full slots are joined in slot order; nothing comes of a counted length of zero, and a TUIC length that has wrapped is told apart. |
| `UdpFragments.FeedItem` | hysteria2/packet.go:355-394 | One fragment keeps the count of filled slots exact and the packet incomplete. |
| `UdpFragments.Fed` | hysteria2/packet.go:349-398 | So it does for all packets of the map. |
| `UdpReassembly.OutputIsExact` | hysteria2/packet.go:349-398 | For any order, any duplicates and anything under other packet numbers, a delivery puts out the whole message if it brings the last fragment missing since the last completion, and nothing otherwise. |
| `UdpReassembly.FirstCompletion` | hysteria2/packet.go:349-398 | Until every fragment has been delivered once, nothing comes out; then exactly the whole message. |
| `UdpReassembly.ItemHoldsPending` | hysteria2/packet.go:349-398 | After any deliveries the packet's slots hold exactly the fragments collected since its last completion. |
| `UdpReassembly.FeedFragment` | hysteria2/packet.go:355-394 | One fragment of the family is stored, ignored as repeated, or completes the packet. |
| `UdpReassembly.SplitIsFamily` | hysteria2/packet.go:87-116 | A message split into at most 255 fragments gives a numbered family that makes the message again. |
| `UdpReassembly.AtMost255Fragments` | hysteria2/packet.go:104-116 | The limit is exact: delivered in order, the fragments give the message back if there are at most 255, and otherwise what comes out first is shorter than the message. |
| `UdpReassembly.InOrderFirstOutput` | hysteria2/packet.go:349-398 | Fragments delivered in order to an empty defragger: the first output is their message, whatever follows. |
| `UdpReassembly.FirstOutputWithLeftovers` | hysteria2/packet.go:355-394 | Without a clean start, for any family and any leftovers of its number and size in any slots: nothing comes out before the last empty slot is filled, then the leftovers with the family in the other slots, and the packet starts clean again. |
| `UdpReassembly.LeftoversAreHarmlessIff` | hysteria2/packet.go:355-394 | That output is the whole message if and only if the joined payloads agree, and so does what the first slot gives. |
| `UdpReassembly.LeftoversMixIn` | hysteria2/packet.go:355-394 | A concrete case: half of an older packet, then both halves of the new one, give half of each. |
| `UdpReassembly.AssembledIs` | hysteria2/packet.go:371-397 | What full slots put out: the joined payloads under the identity of the last fragment, or in TUIC of the first; nothing for no bytes, or in TUIC for a multiple of 65536; and in TUIC a wrapped length for 65536 bytes or more. |
| `HysteriaUdp.EndToEnd` | hysteria2/packet.go:70-116 | Split, encoded, delivered in any order with duplicates among other packets, decoded and fed: each datagram of the message puts out exactly the original session, packet number, destination and payload when it brings the last missing fragment, and nothing otherwise. |
| `HysteriaUdp.EndToEndOnce` | hysteria2/packet.go:349-428 | The first time round: nothing before all fragments have been delivered, then the original message. |
| `HysteriaUdp.OneDatagram` | hysteria2/packet.go:70-116 | A message that fits one datagram is sent whole, decodes to itself, and is put out at once. |
| `HysteriaUdp.PackRoundTrip` | hysteria2/packet.go:404-428 | A datagram decodes to the message it encodes if and only if the address is at most 2048 bytes long; otherwise the length is reported invalid. |
| `HysteriaUdp.FragmentsFit` | hysteria2/packet.go:87-116 | No encoded fragment exceeds the packet size, and each decodes to itself. |
| `HysteriaUdp.WireDeliversFragments` | hysteria2/packet.go:404-428 | What datagrams of the message's fragments decode to are those fragments. |
| `HysteriaUdp.ShortDatagram` | hysteria2/packet.go:70-85 | A datagram byte by byte, for a destination below 64 bytes: session and packet number big-endian, fragment and total, the destination with its length, the payload. |
| `HysteriaUdp.Pack` | hysteria2/packet.go:70-85 | The buffer is the encoding, and its length the header size with the payload. |
| `HysteriaUdp.DecodeUDPMessage` | hysteria2/packet.go:404-428 | The reader's fields, error cases included, are those of the encoding. |
| `TuicUdp.EndToEnd` | tuic/packet.go:390-437 | The same end to end for TUIC, where only the first fragment carries the destination: the message that comes out has it, with the original session, packet number and payload. |
| `TuicUdp.EndToEndOnce` | tuic/packet.go:390-437 | The first time round: nothing before all fragments have been delivered, then the original message. |
| `TuicUdp.OneDatagram` | tuic/packet.go:69-117 | A message that fits one datagram is sent whole, decodes to itself, and is put out at once. |
| `TuicUdp.PackRoundTrip` | tuic/packet.go:477-509 | Behind version and command, a datagram decodes to the message it encodes if and only if the payload fits the 16-bit length field. |
| `TuicUdp.FragmentsFit` | tuic/packet.go:89-117 | No encoded fragment exceeds the packet size, blanked destinations included, and each decodes to itself. |
| `TuicUdp.WireDeliversFragments` | tuic/packet.go:477-509 | What datagrams of the message's fragments decode to are those fragments. |
| `TuicUdp.DatagramBytes` | tuic/packet.go:69-87 | A datagram byte by byte: version and command, session and packet number big-endian, total and fragment, the payload length, the address, the payload. |
| `TuicUdp.Pack` | tuic/packet.go:69-87 | The buffer is the encoding, and its length the header size with the payload. |
| `TuicUdp.DecodeUDPMessage` | tuic/packet.go:477-509 | The reader's fields, error cases included, are those of the encoding. |

## Left out

- 64-bit overflow and floating-point rounding: integers are unbounded and factors exact. The cube root is the floor cube root.
- BbrSenders.BbrSender.SetMaxDatagramSize: asks for a size that is not smaller, because the source panics otherwise.
- BbrSenders.BbrSender.CalculateCongestionWindow: takes the tracked maximum ack height as a number given with the event; its tracker stores expected bytes instead of the excess.
- BbrSenders.BbrSender.EnterProbeBandwidthMode: takes the random draw of the cycle offset as an input.
- BbrSenders.BbrSender.MaybeExitProbeRtt: takes the transport library's packet buffer size as a parameter; the library is not part of this model.
- BandwidthSamplers.BandwidthSampler.OnCongestionEvent: does not model the excess acked, the largest flight of a sample and the largest send rate, which only feed the ack height tracker.
- The sampler's overestimate avoidance, ack points and neutered packets: never enabled or never called by the sender.
- BBR options that no constructor sets: draining to target, overshoot detection, ack aggregation in startup.
- The pacer of the BBR sender: the token bucket is proved for Brutal's.
- RingBuffers.RingBuffer.Offset: returns the element and not a pointer into the ring; `SetOffset` is the store through it.
- PacketQueues.PacketNumberIndexedQueue.GetEntry: returns the entry and not a pointer into the ring.
- PacketQueues.PacketNumberIndexedQueue.Emplace: takes numbers from the invalid number up, because packet numbers are not negative below it.
- WindowedFilters.WindowedFilter.Update: the minimum comparator is not modelled, because nothing uses it here.
- Cubics.Cubic.CongestionWindowAfterAck: asks for a positive window and, inside an epoch, a positive Reno estimate, because the source divides by the estimate; every run of the sender provides both.
- Cubics.Cubic.constructor: takes the package's datagram size as a parameter, because the library constant behind it is not part of this model.
- CubicSenders.CubicSender.SetMaxDatagramSize: asks for a size that is not smaller, because the source panics otherwise. Connection migration and changes of the number of emulated connections are left out.
- CubicSenders.CubicSender.MaybeExitSlowStart: takes the advice of the hybrid slow start as an input.
- Tracing and debug output of the senders.
- Pacers.Pacer.TimeUntilSend: asks for a positive bandwidth when the budget is used up, because the source divides by it; the library's minimum pacing delay is a parameter.
- Brutals.BrutalSender.OnCongestionEventEx: takes the counts of acknowledged and lost packets; the window of Brutal, a formula of the smoothed round trip, is left out.
- Varints.VarintPut: asks for a number below 2^62, because the source panics on larger ones.
- Varints.ReadVarint: models the reader of the transport library as the RFC describes it.
- TcpFraming.ReadVString: says nothing about the stream after an error; callers give the stream up.
- TcpFraming.WriteTCPRequest: takes the random padding as an input. Strings are their bytes.
- UdpFragments.FragUDPMessage: asks for a packet size above the header size when there is something to split; otherwise the source panics or its loop does not end.
- UdpFragments.UdpDefragger.Feed: keeps packets in a plain map; age eviction, message pooling and locks are left out.
- UdpFragments.UdpDefragger.AssembleSlots: when a TUIC length has wrapped to another one, says so and no more; what a buffer of that length takes is up to the library, which is not part of this model. The sender refuses payloads above 65535 bytes.
- HysteriaUdp.EndToEnd: asks that the defragger hold no leftovers of the same number and size; `FirstOutputWithLeftovers` says what happens otherwise.
- TuicUdp.EndToEnd: the address serializer is any one that reads back what it writes and writes no address shorter than the blank one. The stream form of a TUIC message is left out.
- The serializer and parser of hysteria2 that repeat the datagram codec, and `hysteria/packet.go`, the same splitter with a fixed-width header: no harder property.
- The BBR sender of `congestion_meta1`, an older duplicate, and TUIC's own pacer and bandwidth limiter: floating-point heuristics.
- kcp, QUIC, TLS and HTTP/3 plumbing, sessions, timers, port hopping, obfuscation: I/O around libraries that are not part of this model.
