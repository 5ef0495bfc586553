/**
 The bandwidth sampler of congestion_meta2/bandwidth_sampler.go, with overestimate avoidance
 off: what every operation does to the sampler's state, and why every slope it computes has
 a non-negative rise and a positive run.

 Times are nanoseconds, and 0 is the unset time. An infinite rate is the missing value.
 */
module BandwidthSamplers {
  import opened Wrappers
  import opened Arithmetic
  import opened PacketQueues

  const SECOND := 1_000_000_000
  const BYTES_PER_SECOND := 8
  const UNSET_TIME := 0
  const DEFAULT_QUEUE_SIZE := 256

  datatype AckedPacket = AckedPacket(packetNumber: nat, bytesAcked: nat)
  datatype LostPacket = LostPacket(packetNumber: nat, bytesLost: nat)

  datatype SendTimeState = SendTimeState(
    isValid: bool, isAppLimited: bool,
    totalBytesSent: nat, totalBytesAcked: nat, totalBytesLost: nat, bytesInFlight: nat)

  const NO_SEND_STATE := SendTimeState(false, false, 0, 0, 0, 0)

  /** The state of the connection at the moment a packet was sent. */
  datatype Snapshot = Snapshot(
    sentTime: nat, size: nat,
    totalBytesSentAtLastAckedPacket: nat, lastAckedPacketSentTime: nat, lastAckedPacketAckTime: nat,
    sendTimeState: SendTimeState)

  const NO_SNAPSHOT := Snapshot(0, 0, 0, 0, 0, NO_SEND_STATE)

  datatype Sample = Sample(bandwidth: nat, rtt: int, sendRate: Option<nat>, stateAtSend: SendTimeState)

  const NO_SAMPLE := Sample(0, 0, None, NO_SEND_STATE)

  /** What one congestion event teaches; a missing round-trip time is the infinite one. */
  datatype EventSample = EventSample(
    sampleMaxBandwidth: nat, sampleIsAppLimited: bool, sampleRtt: Option<int>, lastPacketSendState: SendTimeState)

  const NO_EVENT_SAMPLE := EventSample(0, false, None, NO_SEND_STATE)

  datatype State = State(
    totalBytesSent: nat, totalBytesAcked: nat, totalBytesLost: nat,
    totalBytesSentAtLastAckedPacket: nat, lastAckedPacketSentTime: nat, lastAckedPacketAckTime: nat,
    lastSentPacket: int, lastAckedPacket: int, isAppLimited: bool, endOfAppLimitedPhase: int,
    tracked: View<Snapshot>)

  const INITIAL := State(0, 0, 0, 0, UNSET_TIME, UNSET_TIME,
                         INVALID_PACKET_NUMBER, INVALID_PACKET_NUMBER, false, INVALID_PACKET_NUMBER, EmptyView())

  // ---------- The invariant ----------

  /** A snapshot's totals are in order, and no larger than the sampler's current ones. */
  predicate SnapshotOk(s: State, snapshot: Snapshot) {
    && snapshot.sendTimeState.isValid
    && snapshot.totalBytesSentAtLastAckedPacket <= snapshot.sendTimeState.totalBytesSent <= s.totalBytesSent
    && snapshot.sendTimeState.totalBytesAcked <= s.totalBytesAcked
  }

  ghost predicate WellFormed(s: State) {
    && s.totalBytesSentAtLastAckedPacket <= s.totalBytesSent
    && INVALID_PACKET_NUMBER <= s.tracked.last <= s.lastSentPacket
    && (forall p :: p in s.tracked.live ==> 0 <= p <= s.tracked.last)
    && (forall p :: p in s.tracked.live ==> SnapshotOk(s, s.tracked.live[p]))
  }

  // ---------- The operations ----------

  /** Bits per second over a stretch of time: defined for a non-empty stretch only. */
  function BandwidthFromDelta(bytes: nat, delta: nat): nat
    requires delta > 0
  {
    bytes * SECOND / delta * BYTES_PER_SECOND
  }

  function SnapshotOf(s: State, sentTime: nat, size: nat, bytesInFlight: nat): Snapshot {
    Snapshot(sentTime, size, s.totalBytesSentAtLastAckedPacket, s.lastAckedPacketSentTime, s.lastAckedPacketAckTime,
             SendTimeState(true, s.isAppLimited, s.totalBytesSent, s.totalBytesAcked, s.totalBytesLost, bytesInFlight))
  }

  /** The running totals once a retransmittable packet is sent; an empty pipe opens a new epoch. */
  function CountSent(s: State, sentTime: nat, bytes: nat, bytesInFlight: nat): State {
    var counted := s.(totalBytesSent := s.totalBytesSent + bytes);
    if bytesInFlight != 0 then counted
    else counted.(lastAckedPacketAckTime := sentTime,
                  totalBytesSentAtLastAckedPacket := counted.totalBytesSent,
                  lastAckedPacketSentTime := sentTime)
  }

  function Sent(s: State, sentTime: nat, packetNumber: nat, bytes: nat, bytesInFlight: nat,
                isRetransmittable: bool): State {
    var noted := s.(lastSentPacket := packetNumber);
    if !isRetransmittable then noted
    else
      var counted := CountSent(noted, sentTime, bytes, bytesInFlight);
      counted.(tracked := EmplaceView(counted.tracked, packetNumber,
                                      SnapshotOf(counted, sentTime, bytes, bytesInFlight + bytes)))
  }

  function LimitedByApp(s: State): State {
    s.(isAppLimited := true, endOfAppLimitedPhase := s.lastSentPacket)
  }

  function Lost(s: State, packetNumber: nat, bytesLost: nat): (State, SendTimeState) {
    (s.(totalBytesLost := s.totalBytesLost + bytesLost),
     if packetNumber in s.tracked.live then s.tracked.live[packetNumber].sendTimeState else NO_SEND_STATE)
  }

  function Obsoleted(s: State, leastUnacked: int): State {
    s.(tracked := RemoveUpToView(s.tracked, leastUnacked))
  }

  /** The running totals once a tracked packet is acknowledged. */
  function CountAcked(s: State, ackTime: nat, packetNumber: nat, sent: Snapshot): State {
    s.(totalBytesAcked := s.totalBytesAcked + sent.size,
       totalBytesSentAtLastAckedPacket := sent.sendTimeState.totalBytesSent,
       lastAckedPacketSentTime := sent.sentTime,
       lastAckedPacketAckTime := ackTime,
       isAppLimited := s.isAppLimited
                       && !(s.endOfAppLimitedPhase == INVALID_PACKET_NUMBER || packetNumber > s.endOfAppLimitedPhase))
  }

  /** The slope of bytes sent; infinite when no time passed. */
  function SendRate(sent: Snapshot): Option<nat>
    requires sent.totalBytesSentAtLastAckedPacket <= sent.sendTimeState.totalBytesSent
  {
    if sent.sentTime > sent.lastAckedPacketSentTime then
      Some(BandwidthFromDelta(sent.sendTimeState.totalBytesSent - sent.totalBytesSentAtLastAckedPacket,
                              sent.sentTime - sent.lastAckedPacketSentTime))
    else None
  }

  function MinRate(rate: Option<nat>, other: nat): nat {
    if rate.Some? && rate.value < other then rate.value else other
  }

  /** The sample that the acknowledgement of a packet yields, given the new acked total. */
  function SampleOf(sent: Snapshot, totalBytesAcked: nat, ackTime: nat): Sample
    requires sent.totalBytesSentAtLastAckedPacket <= sent.sendTimeState.totalBytesSent
    requires sent.sendTimeState.totalBytesAcked <= totalBytesAcked
  {
    if sent.lastAckedPacketSentTime == UNSET_TIME || ackTime - sent.lastAckedPacketAckTime <= 0 then NO_SAMPLE
    else
      var ackRate := BandwidthFromDelta(totalBytesAcked - sent.sendTimeState.totalBytesAcked,
                                        ackTime - sent.lastAckedPacketAckTime);
      Sample(MinRate(SendRate(sent), ackRate), ackTime - sent.sentTime, SendRate(sent), sent.sendTimeState)
  }

  function Acked(s: State, ackTime: nat, packetNumber: nat): (State, Sample)
    requires WellFormed(s)
  {
    var noted := s.(lastAckedPacket := packetNumber);
    if packetNumber !in s.tracked.live then (noted, NO_SAMPLE)
    else
      var sent := s.tracked.live[packetNumber];
      assert SnapshotOk(s, sent);
      var counted := CountAcked(noted, ackTime, packetNumber, sent);
      (counted, SampleOf(sent, counted.totalBytesAcked, ackTime))
  }

  /** A sample claims no more than either slope: its rate, over the slope's time, makes at most the slope's bytes. */
  lemma {:induction false} SampleBelowBothSlopes(sent: Snapshot, totalBytesAcked: nat, ackTime: nat)
    requires sent.totalBytesSentAtLastAckedPacket <= sent.sendTimeState.totalBytesSent
    requires sent.sendTimeState.totalBytesAcked <= totalBytesAcked
    ensures var bandwidth := SampleOf(sent, totalBytesAcked, ackTime).bandwidth;
            var ackedBytes := totalBytesAcked - sent.sendTimeState.totalBytesAcked;
            var sentBytes := sent.sendTimeState.totalBytesSent - sent.totalBytesSentAtLastAckedPacket;
            && (ackTime > sent.lastAckedPacketAckTime ==>
                  bandwidth * (ackTime - sent.lastAckedPacketAckTime) <= BYTES_PER_SECOND * SECOND * ackedBytes)
            && (sent.sentTime > sent.lastAckedPacketSentTime ==>
                  bandwidth * (sent.sentTime - sent.lastAckedPacketSentTime) <= BYTES_PER_SECOND * SECOND * sentBytes)
  {
    hide BandwidthFromDelta;
    var bandwidth := SampleOf(sent, totalBytesAcked, ackTime).bandwidth;
    if ackTime > sent.lastAckedPacketAckTime {
      SlopeRate(bandwidth, totalBytesAcked - sent.sendTimeState.totalBytesAcked, ackTime - sent.lastAckedPacketAckTime);
    }
    if sent.sentTime > sent.lastAckedPacketSentTime {
      SlopeRate(bandwidth, sent.sendTimeState.totalBytesSent - sent.totalBytesSentAtLastAckedPacket,
                sent.sentTime - sent.lastAckedPacketSentTime);
    }
  }

  /** In whole bytes per second, the rate makes at most these bytes in this time, and one more would make too many. */
  predicate IsRate(rate: nat, bytes: nat, delta: int) {
    rate % 8 == 0 && rate / 8 * delta <= 1_000_000_000 * bytes < (rate / 8 + 1) * delta
  }

  /** The rate is that of one stretch, and no more than that of another, if time passed in that one. */
  ghost predicate IsSmallerRate(rate: nat, ackedBytes: int, ackedTime: int, sentBytes: int, sentTime: int) {
    && ackedBytes >= 0 && sentBytes >= 0 && ackedTime > 0
    && rate / 8 * ackedTime <= 1_000_000_000 * ackedBytes
    && (sentTime > 0 ==> rate / 8 * sentTime <= 1_000_000_000 * sentBytes)
    && (IsRate(rate, ackedBytes, ackedTime) || (sentTime > 0 && IsRate(rate, sentBytes, sentTime)))
  }

  lemma {:induction false} DeltaIsRate(bytes: nat, delta: nat, less: nat)
    requires delta > 0
    ensures IsRate(BandwidthFromDelta(bytes, delta), bytes, delta)
    ensures less <= BandwidthFromDelta(bytes, delta) ==> less / 8 * delta <= 1_000_000_000 * bytes
  {
    var q := bytes * SECOND / delta;
    assert bytes * SECOND == delta * q + bytes * SECOND % delta;
    assert q * 8 / 8 == q && q * 8 % 8 == 0;
    assert (q + 1) * delta == delta * q + delta;
    if less <= q * 8 {
      MulMonotone(less / 8, q, delta);
    }
  }

  /**
   A sample is the smaller of the two slopes, exactly: it is the rate of acknowledged bytes since
   the last ack before the send, or of the bytes sent since that packet's send if some time passed;
   and its round trip is the time since the packet's own send.
   */
  lemma {:induction false} SampleIsSmallerSlope(sent: Snapshot, totalBytesAcked: nat, ackTime: nat)
    requires sent.totalBytesSentAtLastAckedPacket <= sent.sendTimeState.totalBytesSent
    requires sent.sendTimeState.totalBytesAcked <= totalBytesAcked
    requires sent.lastAckedPacketSentTime != UNSET_TIME && ackTime > sent.lastAckedPacketAckTime
    ensures var sample := SampleOf(sent, totalBytesAcked, ackTime);
            && IsSmallerRate(sample.bandwidth,
                             totalBytesAcked - sent.sendTimeState.totalBytesAcked,
                             ackTime - sent.lastAckedPacketAckTime,
                             sent.sendTimeState.totalBytesSent - sent.totalBytesSentAtLastAckedPacket,
                             sent.sentTime - sent.lastAckedPacketSentTime)
            && sample.rtt == ackTime - sent.sentTime && sample.stateAtSend == sent.sendTimeState
  {
    hide BandwidthFromDelta, IsRate;
    var rate := SampleOf(sent, totalBytesAcked, ackTime).bandwidth;
    DeltaIsRate(totalBytesAcked - sent.sendTimeState.totalBytesAcked, ackTime - sent.lastAckedPacketAckTime, rate);
    if sent.sentTime > sent.lastAckedPacketSentTime {
      DeltaIsRate(sent.sendTimeState.totalBytesSent - sent.totalBytesSentAtLastAckedPacket,
                  sent.sentTime - sent.lastAckedPacketSentTime, rate);
    }
  }

  lemma {:induction false} SlopeRate(rate: nat, bytes: nat, delta: nat)
    requires delta > 0
    ensures rate <= BandwidthFromDelta(bytes, delta) ==> rate * delta <= BYTES_PER_SECOND * SECOND * bytes
  {
    var q := bytes * SECOND / delta;
    assert q * delta <= bytes * SECOND;
    if rate <= q * BYTES_PER_SECOND {
      MulMonotone(rate, q * BYTES_PER_SECOND, delta);
      assert q * BYTES_PER_SECOND * delta == BYTES_PER_SECOND * (q * delta);
    }
  }

  // ---------- Every operation keeps the invariant ----------

  lemma {:induction false} SentKeepsWellFormed(s: State, sentTime: nat, packetNumber: nat, bytes: nat,
                                               bytesInFlight: nat, isRetransmittable: bool)
    requires WellFormed(s) && packetNumber > s.lastSentPacket
    ensures WellFormed(Sent(s, sentTime, packetNumber, bytes, bytesInFlight, isRetransmittable))
    ensures isRetransmittable ==>
      packetNumber in Sent(s, sentTime, packetNumber, bytes, bytesInFlight, isRetransmittable).tracked.live
  {
    var after := Sent(s, sentTime, packetNumber, bytes, bytesInFlight, isRetransmittable);
    assert Accepts(s.tracked, packetNumber);
    forall p | p in after.tracked.live ensures SnapshotOk(after, after.tracked.live[p]) {
      assert p != packetNumber ==> SnapshotOk(s, s.tracked.live[p]);
    }
  }

  lemma {:induction false} AckedKeepsWellFormed(s: State, ackTime: nat, packetNumber: nat)
    requires WellFormed(s)
    ensures WellFormed(Acked(s, ackTime, packetNumber).0)
  {
    var after := Acked(s, ackTime, packetNumber).0;
    assert packetNumber in s.tracked.live ==> SnapshotOk(s, s.tracked.live[packetNumber]);
    forall p | p in after.tracked.live ensures SnapshotOk(after, after.tracked.live[p]) {
      assert SnapshotOk(s, s.tracked.live[p]);
    }
  }

  lemma {:induction false} OthersKeepWellFormed(s: State, packetNumber: nat, bytesLost: nat, leastUnacked: int)
    requires WellFormed(s)
    ensures WellFormed(LimitedByApp(s))
    ensures WellFormed(Lost(s, packetNumber, bytesLost).0)
    ensures WellFormed(Obsoleted(s, leastUnacked))
  {
    var lost, kept := Lost(s, packetNumber, bytesLost).0, Obsoleted(s, leastUnacked);
    forall p | p in s.tracked.live
      ensures SnapshotOk(LimitedByApp(s), s.tracked.live[p])
      ensures SnapshotOk(lost, s.tracked.live[p])
      ensures SnapshotOk(kept, s.tracked.live[p])
    {
      assert SnapshotOk(s, s.tracked.live[p]);
    }
  }

  // ---------- Congestion events ----------

  /** The losses of an event, in order, and the send state of the last tracked one. */
  function LoseAll(s: State, lost: seq<LostPacket>): (State, SendTimeState) {
    if lost == [] then (s, NO_SEND_STATE)
    else
      var (before, state) := LoseAll(s, lost[..|lost| - 1]);
      var (after, sendState) := Lost(before, lost[|lost| - 1].packetNumber, lost[|lost| - 1].bytesLost);
      (after, if sendState.isValid then sendState else state)
  }

  /** One valid sample's contribution to the sample of its event. */
  function Merged(e: EventSample, sample: Sample): EventSample {
    if !sample.stateAtSend.isValid then e
    else
      var rtt := if sample.rtt == 0 then e.sampleRtt
                 else if e.sampleRtt.Some? && e.sampleRtt.value < sample.rtt then e.sampleRtt
                 else Some(sample.rtt);
      var better := sample.bandwidth > e.sampleMaxBandwidth;
      EventSample(if better then sample.bandwidth else e.sampleMaxBandwidth,
                  if better then sample.stateAtSend.isAppLimited else e.sampleIsAppLimited,
                  rtt, sample.stateAtSend)
  }

  function AckAll(s: State, ackTime: nat, acked: seq<AckedPacket>): (r: (State, EventSample))
    requires WellFormed(s)
    ensures WellFormed(r.0)
  {
    if acked == [] then (s, NO_EVENT_SAMPLE)
    else
      var (before, sample) := AckAll(s, ackTime, acked[..|acked| - 1]);
      var (after, new_) := Acked(before, ackTime, acked[|acked| - 1].packetNumber);
      AckedKeepsWellFormed(before, ackTime, acked[|acked| - 1].packetNumber);
      (after, Merged(sample, new_))
  }

  lemma {:induction false} LoseAllKeepsWellFormed(s: State, lost: seq<LostPacket>)
    requires WellFormed(s)
    ensures WellFormed(LoseAll(s, lost).0)
    ensures LoseAll(s, lost).0 == s.(totalBytesLost := LoseAll(s, lost).0.totalBytesLost)
  {
    if lost != [] {
      LoseAllKeepsWellFormed(s, lost[..|lost| - 1]);
      OthersKeepWellFormed(LoseAll(s, lost[..|lost| - 1]).0, lost[|lost| - 1].packetNumber,
          lost[|lost| - 1].bytesLost, 0);
    }
  }

  /**
   Which of the two send states an event reports, those of its acks and of its losses: when both
   are valid, the last entries of the two lists decide, whether or not the states are theirs.
   */
  function LastSendState(acked: seq<AckedPacket>, lost: seq<LostPacket>,
                         ackedState: SendTimeState, lostState: SendTimeState): SendTimeState
    requires acked != [] && (lost == [] ==> !lostState.isValid)
  {
    if !lostState.isValid then ackedState
    else if !ackedState.isValid then lostState
    else if lost[|lost| - 1].packetNumber > acked[|acked| - 1].packetNumber then lostState
    else ackedState
  }

  function CongestionEvent(s: State, ackTime: nat, acked: seq<AckedPacket>,
                           lost: seq<LostPacket>): (r: (State, EventSample))
    requires WellFormed(s)
    ensures WellFormed(r.0)
  {
    var (afterLosses, lostState) := LoseAll(s, lost);
    LoseAllKeepsWellFormed(s, lost);
    if acked == [] then (afterLosses, NO_EVENT_SAMPLE.(lastPacketSendState := lostState))
    else
      var (after, sample) := AckAll(afterLosses, ackTime, acked);
      (after, sample.(lastPacketSendState := LastSendState(acked, lost, sample.lastPacketSendState, lostState)))
  }

  // ---------- The sampler ----------

  class BandwidthSampler {
    var totalBytesSent: nat
    var totalBytesAcked: nat
    var totalBytesLost: nat
    var totalBytesSentAtLastAckedPacket: nat
    var lastAckedPacketSentTime: nat
    var lastAckedPacketAckTime: nat
    var lastSentPacket: int
    var lastAckedPacket: int
    var isAppLimited: bool
    var endOfAppLimitedPhase: int
    const connectionStateMap: PacketNumberIndexedQueue<Snapshot>

    ghost function Repr(): set<object>
      reads this, connectionStateMap, connectionStateMap.entries
    {
      {this} + connectionStateMap.Repr()
    }

    ghost predicate Valid()
      reads Repr()
    {
      this !in connectionStateMap.Repr() && connectionStateMap.Valid()
    }

    ghost function Model(): State
      requires Valid()
      reads Repr()
    {
      State(totalBytesSent, totalBytesAcked, totalBytesLost,
            totalBytesSentAtLastAckedPacket, lastAckedPacketSentTime, lastAckedPacketAckTime,
            lastSentPacket, lastAckedPacket, isAppLimited, endOfAppLimitedPhase, connectionStateMap.State())
    }

    constructor ()
      ensures Valid() && fresh(Repr())
      ensures Model() == INITIAL
    {
      totalBytesSent, totalBytesAcked, totalBytesLost := 0, 0, 0;
      totalBytesSentAtLastAckedPacket := 0;
      lastAckedPacketSentTime, lastAckedPacketAckTime := UNSET_TIME, UNSET_TIME;
      lastSentPacket, lastAckedPacket := INVALID_PACKET_NUMBER, INVALID_PACKET_NUMBER;
      isAppLimited, endOfAppLimitedPhase := false, INVALID_PACKET_NUMBER;
      connectionStateMap := new PacketNumberIndexedQueue(NO_SNAPSHOT, DEFAULT_QUEUE_SIZE);
    }

    function TotalBytesAcked(): (total: nat)
      requires Valid()
      reads Repr()
      ensures total == Model().totalBytesAcked
    {
      totalBytesAcked
    }

    function TotalBytesLost(): (total: nat)
      requires Valid()
      reads Repr()
      ensures total == Model().totalBytesLost
    {
      totalBytesLost
    }

    method OnPacketSent(sentTime: nat, packetNumber: nat, bytes: nat, bytesInFlight: nat, isRetransmittable: bool)
      requires Valid()
      modifies Repr()
      ensures Valid() && fresh(Repr() - old(Repr()))
      ensures Model() == Sent(old(Model()), sentTime, packetNumber, bytes, bytesInFlight, isRetransmittable)
    {
      hide PacketNumberIndexedQueue.Valid, PacketNumberIndexedQueue.State;
      lastSentPacket := packetNumber;
      if !isRetransmittable {
        return;
      }
      totalBytesSent := totalBytesSent + bytes;
      if bytesInFlight == 0 {
        lastAckedPacketAckTime := sentTime;
        totalBytesSentAtLastAckedPacket := totalBytesSent;
        lastAckedPacketSentTime := sentTime;
      }
      var state := SendTimeState(true, isAppLimited, totalBytesSent, totalBytesAcked, totalBytesLost,
          bytesInFlight + bytes);
      var snapshot := Snapshot(sentTime, bytes, totalBytesSentAtLastAckedPacket,
                               lastAckedPacketSentTime, lastAckedPacketAckTime, state);
      var _ := connectionStateMap.Emplace(packetNumber, Some(snapshot));
    }

    method OnAppLimited()
      requires Valid()
      modifies this
      ensures Valid() && Repr() == old(Repr())
      ensures Model() == LimitedByApp(old(Model()))
    {
      isAppLimited := true;
      endOfAppLimitedPhase := lastSentPacket;
    }

    method OnPacketLost(packetNumber: nat, bytesLost: nat) returns (s: SendTimeState)
      requires Valid()
      modifies this
      ensures Valid() && Repr() == old(Repr())
      ensures (Model(), s) == Lost(old(Model()), packetNumber, bytesLost)
    {
      totalBytesLost := totalBytesLost + bytesLost;
      var sent := connectionStateMap.GetEntry(packetNumber);
      s := if sent.Some? then sent.value.sendTimeState else NO_SEND_STATE;
    }

    method RemoveObsoletePackets(leastUnacked: int)
      requires Valid()
      modifies Repr()
      ensures Valid() && fresh(Repr() - old(Repr()))
      ensures Model() == Obsoleted(old(Model()), leastUnacked)
    {
      hide PacketNumberIndexedQueue.Valid, PacketNumberIndexedQueue.State;
      connectionStateMap.RemoveUpTo(leastUnacked);
    }

    method OnPacketAcknowledged(ackTime: nat, packetNumber: nat) returns (sample: Sample)
      requires Valid() && WellFormed(Model())
      modifies this
      ensures Valid() && Repr() == old(Repr())
      ensures (Model(), sample) == Acked(old(Model()), ackTime, packetNumber)
    {
      hide PacketNumberIndexedQueue.Valid, PacketNumberIndexedQueue.State, PacketNumberIndexedQueue.GetEntry, SampleOf;
      sample := NO_SAMPLE;
      ghost var before := Model();
      lastAckedPacket := packetNumber;
      var found := connectionStateMap.GetEntry(packetNumber);
      if found.None? {
        return;
      }
      var sent := found.value;
      assert SnapshotOk(before, sent);
      totalBytesAcked := totalBytesAcked + sent.size;
      totalBytesSentAtLastAckedPacket := sent.sendTimeState.totalBytesSent;
      lastAckedPacketSentTime := sent.sentTime;
      lastAckedPacketAckTime := ackTime;
      if isAppLimited {
        if endOfAppLimitedPhase == INVALID_PACKET_NUMBER || packetNumber > endOfAppLimitedPhase {
          isAppLimited := false;
        }
      }
      sample := SampleOf(sent, totalBytesAcked, ackTime);
    }

    method OnCongestionEvent(ackTime: nat, ackedPackets: seq<AckedPacket>, lostPackets: seq<LostPacket>)
      returns (eventSample: EventSample)
      requires Valid() && WellFormed(Model())
      modifies this
      ensures Valid() && Repr() == old(Repr())
      ensures (Model(), eventSample) == CongestionEvent(old(Model()), ackTime, ackedPackets, lostPackets)
    {
      var lastLost := LoseEach(lostPackets);
      LoseAllKeepsWellFormed(old(Model()), lostPackets);
      if |ackedPackets| == 0 {
        return NO_EVENT_SAMPLE.(lastPacketSendState := lastLost);
      }
      eventSample := AckEach(ackTime, ackedPackets);
      var lastAcked := eventSample.lastPacketSendState;
      if !lastLost.isValid {
        eventSample := eventSample.(lastPacketSendState := lastAcked);
      } else if !lastAcked.isValid {
        eventSample := eventSample.(lastPacketSendState := lastLost);
      } else if lostPackets[|lostPackets| - 1].packetNumber > ackedPackets[|ackedPackets| - 1].packetNumber {
        eventSample := eventSample.(lastPacketSendState := lastLost);
      } else {
        eventSample := eventSample.(lastPacketSendState := lastAcked);
      }
    }

    /** The loop over the lost packets. */
    method LoseEach(lostPackets: seq<LostPacket>) returns (lastLost: SendTimeState)
      requires Valid()
      modifies this
      ensures Valid() && Repr() == old(Repr())
      ensures (Model(), lastLost) == LoseAll(old(Model()), lostPackets)
    {
      hide PacketNumberIndexedQueue.Valid, PacketNumberIndexedQueue.State;
      lastLost := NO_SEND_STATE;
      for i := 0 to |lostPackets|
        invariant Valid() && Repr() == old(Repr())
        invariant (Model(), lastLost) == LoseAll(old(Model()), lostPackets[..i])
      {
        assert lostPackets[..i + 1][..i] == lostPackets[..i];
        var sendState := OnPacketLost(lostPackets[i].packetNumber, lostPackets[i].bytesLost);
        if sendState.isValid {
          lastLost := sendState;
        }
      }
      assert lostPackets[..|lostPackets|] == lostPackets;
    }

    /** The loop over the acknowledged packets. */
    method AckEach(ackTime: nat, ackedPackets: seq<AckedPacket>) returns (eventSample: EventSample)
      requires Valid() && WellFormed(Model())
      modifies this
      ensures Valid() && Repr() == old(Repr())
      ensures (Model(), eventSample) == AckAll(old(Model()), ackTime, ackedPackets)
    {
      hide PacketNumberIndexedQueue.Valid, PacketNumberIndexedQueue.State, WellFormed;
      eventSample := NO_EVENT_SAMPLE;
      for i := 0 to |ackedPackets|
        invariant Valid() && Repr() == old(Repr())
        invariant (Model(), eventSample) == AckAll(old(Model()), ackTime, ackedPackets[..i])
      {
        assert ackedPackets[..i + 1][..i] == ackedPackets[..i];
        var sample := OnPacketAcknowledged(ackTime, ackedPackets[i].packetNumber);
        if !sample.stateAtSend.isValid {
          continue;
        }
        eventSample := eventSample.(lastPacketSendState := sample.stateAtSend);
        if sample.rtt != 0 {
          if eventSample.sampleRtt.None? || sample.rtt <= eventSample.sampleRtt.value {
            eventSample := eventSample.(sampleRtt := Some(sample.rtt));
          }
        }
        if sample.bandwidth > eventSample.sampleMaxBandwidth {
          eventSample := eventSample.(sampleMaxBandwidth := sample.bandwidth,
                                      sampleIsAppLimited := sample.stateAtSend.isAppLimited);
        }
      }
      assert ackedPackets[..|ackedPackets|] == ackedPackets;
    }
  }
}
