/**
 The bandwidth sampler of congestion_meta1/bandwidth_sampler.go: its byte totals, its map of
 tracked packets and the samples it returns; the conservation of bytes between totals and map,
 and slopes that are well formed.
 */
module ConservingSamplers {
  import opened Wrappers
  import Rates = BandwidthSamplers

  const UNSET_TIME := 0

  datatype SendTimeState = SendTimeState(
    isValid: bool, isAppLimited: bool, totalBytesSent: nat, totalBytesAcked: nat, totalBytesLost: nat)

  const NO_SEND_STATE := SendTimeState(false, false, 0, 0, 0)

  datatype Snapshot = Snapshot(
    packetNumber: nat, sendTime: nat, size: nat,
    totalBytesSentAtLastAckedPacket: nat, lastAckedPacketSentTime: nat, lastAckedPacketAckTime: nat,
    sendTimeState: SendTimeState)

  datatype State = State(
    totalBytesSent: nat, totalBytesAcked: nat, totalBytesLost: nat,
    totalBytesSentAtLastAckedPacket: nat, lastAckedPacketSentTime: nat, lastAckedPacketAckTime: nat,
    lastSendPacket: nat, isAppLimited: bool, endOfAppLimitedPhase: nat,
    stats: map<nat, Snapshot>)

  const INITIAL := State(0, 0, 0, 0, UNSET_TIME, UNSET_TIME, 0, false, 0, map[])

  /** A missing round-trip time is the infinite one. */
  datatype Sample = Sample(bandwidth: nat, rtt: Option<int>, stateAtSend: SendTimeState)

  const NO_SAMPLE := Sample(0, None, NO_SEND_STATE)

  /** A snapshot's totals are in order, and no larger than the sampler's current ones. */
  predicate SnapshotOk(s: State, snapshot: Snapshot) {
    && snapshot.totalBytesSentAtLastAckedPacket <= snapshot.sendTimeState.totalBytesSent <= s.totalBytesSent
    && snapshot.sendTimeState.totalBytesAcked <= s.totalBytesAcked
  }

  predicate WellFormed(s: State) {
    && s.totalBytesSentAtLastAckedPacket <= s.totalBytesSent
    && forall p :: p in s.stats ==> SnapshotOk(s, s.stats[p])
  }

  // ---------- The operations ----------

  function SnapshotOf(s: State, packetNumber: nat, sentTime: nat, size: nat): Snapshot {
    Snapshot(packetNumber, sentTime, size,
             s.totalBytesSentAtLastAckedPacket, s.lastAckedPacketSentTime, s.lastAckedPacketAckTime,
             SendTimeState(true, s.isAppLimited, s.totalBytesSent, s.totalBytesAcked, s.totalBytesLost))
  }

  /** The insertion that keeps an entry already there. */
  function Inserted(s: State, packetNumber: nat, sentTime: nat, size: nat): State {
    if packetNumber in s.stats then s
    else s.(stats := s.stats[packetNumber := SnapshotOf(s, packetNumber, sentTime, size)])
  }

  function Sent(s: State, sentTime: nat, packetNumber: nat, bytes: nat, bytesInFlight: nat,
                isRetransmittable: bool): State {
    var noted := s.(lastSendPacket := packetNumber);
    if !isRetransmittable then noted
    else
      var counted := noted.(totalBytesSent := s.totalBytesSent + bytes);
      var started := if bytesInFlight != 0 then counted
                    else counted.(lastAckedPacketAckTime := sentTime,
                                  totalBytesSentAtLastAckedPacket := counted.totalBytesSent,
                                  lastAckedPacketSentTime := sentTime);
      Inserted(started, packetNumber, sentTime, bytes)
  }

  /** The slope of bytes sent; infinite when no time passed. */
  function SendRate(sent: Snapshot): Option<nat>
    requires sent.totalBytesSentAtLastAckedPacket <= sent.sendTimeState.totalBytesSent
  {
    if sent.sendTime > sent.lastAckedPacketSentTime then
      Some(Rates.BandwidthFromDelta(sent.sendTimeState.totalBytesSent - sent.totalBytesSentAtLastAckedPacket,
                                    sent.sendTime - sent.lastAckedPacketSentTime))
    else None
  }

  /** The sample that an acknowledgement yields, given the new acked total. */
  function SampleOf(sent: Snapshot, totalBytesAcked: nat, ackTime: nat): Sample
    requires sent.totalBytesSentAtLastAckedPacket <= sent.sendTimeState.totalBytesSent
    requires sent.sendTimeState.totalBytesAcked <= totalBytesAcked
  {
    if sent.lastAckedPacketSentTime == UNSET_TIME || ackTime <= sent.lastAckedPacketAckTime then NO_SAMPLE
    else
      var ackRate := Rates.BandwidthFromDelta(totalBytesAcked - sent.sendTimeState.totalBytesAcked,
                                              ackTime - sent.lastAckedPacketAckTime);
      Sample(Rates.MinRate(SendRate(sent), ackRate), Some(ackTime - sent.sendTime), sent.sendTimeState)
  }

  function Acked(s: State, ackTime: nat, packetNumber: nat): (State, Sample)
    requires WellFormed(s)
  {
    if packetNumber !in s.stats then (s, NO_SAMPLE)
    else
      var sent := s.stats[packetNumber];
      assert SnapshotOk(s, sent);
      (s.(totalBytesAcked := s.totalBytesAcked + sent.size,
          totalBytesSentAtLastAckedPacket := sent.sendTimeState.totalBytesSent,
          lastAckedPacketSentTime := sent.sendTime, lastAckedPacketAckTime := ackTime,
          isAppLimited := s.isAppLimited && packetNumber <= s.endOfAppLimitedPhase,
          stats := s.stats - {packetNumber}),
       SampleOf(sent, s.totalBytesAcked + sent.size, ackTime))
  }

  function Lost(s: State, packetNumber: nat): (State, SendTimeState) {
    if packetNumber !in s.stats then (s, NO_SEND_STATE)
    else (s.(totalBytesLost := s.totalBytesLost + s.stats[packetNumber].size, stats := s.stats - {packetNumber}),
          s.stats[packetNumber].sendTimeState)
  }

  function LimitedByApp(s: State): State {
    s.(isAppLimited := true, endOfAppLimitedPhase := s.lastSendPacket)
  }

  class BandwidthSampler {
    var totalBytesSent: nat
    var totalBytesAcked: nat
    var totalBytesLost: nat
    var totalBytesSentAtLastAckedPacket: nat
    var lastAckedPacketSentTime: nat
    var lastAckedPacketAckTime: nat
    var lastSendPacket: nat
    var isAppLimited: bool
    var endOfAppLimitedPhase: nat
    var stats: map<nat, Snapshot>

    ghost function Model(): State
      reads this
    {
      State(totalBytesSent, totalBytesAcked, totalBytesLost,
            totalBytesSentAtLastAckedPacket, lastAckedPacketSentTime, lastAckedPacketAckTime,
            lastSendPacket, isAppLimited, endOfAppLimitedPhase, stats)
    }

    constructor ()
      ensures Model() == INITIAL
    {
      totalBytesSent, totalBytesAcked, totalBytesLost := 0, 0, 0;
      totalBytesSentAtLastAckedPacket := 0;
      lastAckedPacketSentTime, lastAckedPacketAckTime := UNSET_TIME, UNSET_TIME;
      lastSendPacket, isAppLimited, endOfAppLimitedPhase := 0, false, 0;
      stats := map[];
    }

    method OnPacketSent(sentTime: nat, lastSentPacket: nat, sentBytes: nat, bytesInFlight: nat,
                        hasRetransmittableData: bool)
      modifies this
      ensures Model() == Sent(old(Model()), sentTime, lastSentPacket, sentBytes, bytesInFlight, hasRetransmittableData)
    {
      lastSendPacket := lastSentPacket;
      if !hasRetransmittableData {
        return;
      }
      totalBytesSent := totalBytesSent + sentBytes;
      if bytesInFlight == 0 {
        lastAckedPacketAckTime := sentTime;
        totalBytesSentAtLastAckedPacket := totalBytesSent;
        lastAckedPacketSentTime := sentTime;
      }
      Insert(lastSentPacket, sentTime, sentBytes);
    }

    method Insert(packetNumber: nat, sentTime: nat, bytes: nat)
      modifies `stats
      ensures Model() == Inserted(old(Model()), packetNumber, sentTime, bytes)
    {
      if packetNumber in stats {
        return;
      }
      stats := stats[packetNumber :=
        Snapshot(packetNumber, sentTime, bytes,
                 totalBytesSentAtLastAckedPacket, lastAckedPacketSentTime, lastAckedPacketAckTime,
                 SendTimeState(true, isAppLimited, totalBytesSent, totalBytesAcked, totalBytesLost))];
    }

    method OnPacketAcked(ackTime: nat, lastAckedPacket: nat) returns (sample: Sample)
      requires WellFormed(Model())
      modifies this
      ensures (Model(), sample) == Acked(old(Model()), ackTime, lastAckedPacket)
    {
      if lastAckedPacket !in stats {
        return NO_SAMPLE;
      }
      var sent := stats[lastAckedPacket];
      assert SnapshotOk(Model(), sent);
      sample := OnPacketAckedInner(ackTime, lastAckedPacket, sent);
      stats := stats - {lastAckedPacket};
    }

    /** The calculations for a tracked packet. */
    method OnPacketAckedInner(ackTime: nat, lastAckedPacket: nat, sent: Snapshot) returns (sample: Sample)
      requires SnapshotOk(Model(), sent)
      modifies this
      ensures Model() == old(Model()).(
                totalBytesAcked := old(totalBytesAcked) + sent.size,
                totalBytesSentAtLastAckedPacket := sent.sendTimeState.totalBytesSent,
                lastAckedPacketSentTime := sent.sendTime, lastAckedPacketAckTime := ackTime,
                isAppLimited := old(isAppLimited) && lastAckedPacket <= endOfAppLimitedPhase)
      ensures sample == SampleOf(sent, totalBytesAcked, ackTime)
    {
      totalBytesAcked := totalBytesAcked + sent.size;
      totalBytesSentAtLastAckedPacket := sent.sendTimeState.totalBytesSent;
      lastAckedPacketSentTime := sent.sendTime;
      lastAckedPacketAckTime := ackTime;
      if isAppLimited && lastAckedPacket > endOfAppLimitedPhase {
        isAppLimited := false;
      }
      if sent.lastAckedPacketSentTime == UNSET_TIME {
        return NO_SAMPLE;
      }
      var sendRate: Option<nat> := None;
      if sent.sendTime > sent.lastAckedPacketSentTime {
        sendRate := Some(Rates.BandwidthFromDelta(
          sent.sendTimeState.totalBytesSent - sent.totalBytesSentAtLastAckedPacket,
          sent.sendTime - sent.lastAckedPacketSentTime));
      }
      if ackTime <= sent.lastAckedPacketAckTime {
        return NO_SAMPLE;
      }
      var ackRate := Rates.BandwidthFromDelta(totalBytesAcked - sent.sendTimeState.totalBytesAcked,
                                              ackTime - sent.lastAckedPacketAckTime);
      return Sample(Rates.MinRate(sendRate, ackRate), Some(ackTime - sent.sendTime), sent.sendTimeState);
    }

    method OnCongestionEvent(packetNumber: nat) returns (state: SendTimeState)
      modifies this
      ensures (Model(), state) == Lost(old(Model()), packetNumber)
    {
      if packetNumber !in stats {
        return NO_SEND_STATE;
      }
      var sent := stats[packetNumber];
      stats := stats - {packetNumber};
      totalBytesLost := totalBytesLost + sent.size;
      return sent.sendTimeState;
    }

    method OnAppLimited()
      modifies this
      ensures Model() == LimitedByApp(old(Model()))
    {
      isAppLimited := true;
      endOfAppLimitedPhase := lastSendPacket;
    }
  }

  // ---------- Slopes ----------

  lemma {:induction false} SendKeepsWellFormed(s: State, sentTime: nat, p: nat, bytes: nat,
                                               bytesInFlight: nat, isRetransmittable: bool)
    requires WellFormed(s)
    ensures WellFormed(Sent(s, sentTime, p, bytes, bytesInFlight, isRetransmittable))
  {
    var t := Sent(s, sentTime, p, bytes, bytesInFlight, isRetransmittable);
    forall q | q in t.stats ensures SnapshotOk(t, t.stats[q]) {
      assert q in s.stats ==> SnapshotOk(s, s.stats[q]);
    }
  }

  lemma {:induction false} AckAndLossKeepWellFormed(s: State, ackTime: nat, p: nat)
    requires WellFormed(s)
    ensures WellFormed(Acked(s, ackTime, p).0) && WellFormed(Lost(s, p).0)
  {
    var acked, lost := Acked(s, ackTime, p).0, Lost(s, p).0;
    assert p in s.stats ==> SnapshotOk(s, s.stats[p]);
    forall q | q in s.stats && q != p ensures SnapshotOk(acked, s.stats[q]) && SnapshotOk(lost, s.stats[q]) {
      assert SnapshotOk(s, s.stats[q]);
    }
  }

  /** A sample claims no more than either slope: its rate, over the slope's time, makes at most the slope's bytes. */
  lemma {:induction false} SampleBelowBothSlopes(sent: Snapshot, totalBytesAcked: nat, ackTime: nat)
    requires sent.totalBytesSentAtLastAckedPacket <= sent.sendTimeState.totalBytesSent
    requires sent.sendTimeState.totalBytesAcked <= totalBytesAcked
    ensures var bandwidth := SampleOf(sent, totalBytesAcked, ackTime).bandwidth;
            var ackedBytes := totalBytesAcked - sent.sendTimeState.totalBytesAcked;
            var sentBytes := sent.sendTimeState.totalBytesSent - sent.totalBytesSentAtLastAckedPacket;
            && (ackTime > sent.lastAckedPacketAckTime ==>
                  bandwidth * (ackTime - sent.lastAckedPacketAckTime)
                  <= Rates.BYTES_PER_SECOND * Rates.SECOND * ackedBytes)
            && (sent.sendTime > sent.lastAckedPacketSentTime ==>
                  bandwidth * (sent.sendTime - sent.lastAckedPacketSentTime)
                  <= Rates.BYTES_PER_SECOND * Rates.SECOND * sentBytes)
  {
    hide Rates.BandwidthFromDelta;
    var bandwidth := SampleOf(sent, totalBytesAcked, ackTime).bandwidth;
    if ackTime > sent.lastAckedPacketAckTime {
      Rates.SlopeRate(bandwidth, totalBytesAcked - sent.sendTimeState.totalBytesAcked,
                      ackTime - sent.lastAckedPacketAckTime);
    }
    if sent.sendTime > sent.lastAckedPacketSentTime {
      Rates.SlopeRate(bandwidth, sent.sendTimeState.totalBytesSent - sent.totalBytesSentAtLastAckedPacket,
                      sent.sendTime - sent.lastAckedPacketSentTime);
    }
  }

  /**
   There is a sample exactly when something was acknowledged before the send, and time has passed
   since; then its rate is exactly that of the smaller slope, and its round trip the time since the
   packet's own send.
   */
  lemma {:induction false} SampleIsSmallerSlope(sent: Snapshot, totalBytesAcked: nat, ackTime: nat)
    requires sent.totalBytesSentAtLastAckedPacket <= sent.sendTimeState.totalBytesSent
    requires sent.sendTimeState.totalBytesAcked <= totalBytesAcked
    ensures var sample := SampleOf(sent, totalBytesAcked, ackTime);
            if sent.lastAckedPacketSentTime != UNSET_TIME && ackTime > sent.lastAckedPacketAckTime
            then
              && Rates.IsSmallerRate(sample.bandwidth,
                                     totalBytesAcked - sent.sendTimeState.totalBytesAcked,
                                     ackTime - sent.lastAckedPacketAckTime,
                                     sent.sendTimeState.totalBytesSent - sent.totalBytesSentAtLastAckedPacket,
                                     sent.sendTime - sent.lastAckedPacketSentTime)
              && sample.rtt == Some(ackTime - sent.sendTime) && sample.stateAtSend == sent.sendTimeState
            else sample == NO_SAMPLE
  {
    hide Rates.BandwidthFromDelta, Rates.IsRate;
    var rate := SampleOf(sent, totalBytesAcked, ackTime).bandwidth;
    if sent.lastAckedPacketSentTime != UNSET_TIME && ackTime > sent.lastAckedPacketAckTime {
      Rates.DeltaIsRate(totalBytesAcked - sent.sendTimeState.totalBytesAcked, ackTime - sent.lastAckedPacketAckTime,
                        rate);
      if sent.sendTime > sent.lastAckedPacketSentTime {
        Rates.DeltaIsRate(sent.sendTimeState.totalBytesSent - sent.totalBytesSentAtLastAckedPacket,
                          sent.sendTime - sent.lastAckedPacketSentTime, rate);
      }
    }
  }

  // ---------- Conservation ----------

  ghost function SumSizes(stats: map<nat, Snapshot>): nat {
    if stats == map[] then 0
    else
      var p :| p in stats;
      stats[p].size + SumSizes(stats - {p})
  }

  lemma {:induction false} SumWithout(stats: map<nat, Snapshot>, p: nat)
    requires p in stats
    ensures SumSizes(stats) == stats[p].size + SumSizes(stats - {p})
    decreases |stats|
  {
    var q :| q in stats && SumSizes(stats) == stats[q].size + SumSizes(stats - {q});
    if q != p {
      SumWithout(stats - {q}, p);
      SumWithout(stats - {p}, q);
      assert stats - {q} - {p} == stats - {p} - {q};
    }
  }

  /** All bytes sent are acknowledged, lost, or tracked. */
  ghost predicate Conserved(s: State) {
    s.totalBytesSent == s.totalBytesAcked + s.totalBytesLost + SumSizes(s.stats)
  }

  /** A send conserves the bytes exactly when it is tracked: a number already in use loses them. */
  lemma {:induction false} SendConservesIff(s: State, sentTime: nat, p: nat, bytes: nat, bytesInFlight: nat,
                                            isRetransmittable: bool)
    requires Conserved(s)
    ensures Conserved(Sent(s, sentTime, p, bytes, bytesInFlight, isRetransmittable))
       <==> !isRetransmittable || p !in s.stats || bytes == 0
  {
    var t := Sent(s, sentTime, p, bytes, bytesInFlight, isRetransmittable);
    if isRetransmittable && p !in s.stats {
      SumWithout(t.stats, p);
      assert t.stats - {p} == s.stats;
    }
  }

  /** Acks and losses conserve the bytes, and repeating either after either changes nothing. */
  lemma {:induction false} AckAndLossConserve(s: State, ackTime: nat, p: nat)
    requires Conserved(s) && WellFormed(s)
    ensures var acked, lost := Acked(s, ackTime, p).0, Lost(s, p).0;
            && Conserved(acked) && Conserved(lost) && WellFormed(acked) && WellFormed(lost)
            && (forall later :: Acked(acked, later, p) == (acked, NO_SAMPLE))
            && (forall later :: Acked(lost, later, p) == (lost, NO_SAMPLE))
            && Lost(acked, p) == (acked, NO_SEND_STATE) && Lost(lost, p) == (lost, NO_SEND_STATE)
  {
    AckAndLossKeepWellFormed(s, ackTime, p);
    if p in s.stats {
      SumWithout(s.stats, p);
    }
  }

  datatype Op =
    | Send(sentTime: nat, packetNumber: nat, bytes: nat, bytesInFlight: nat, isRetransmittable: bool)
    | Ack(ackTime: nat, packetNumber: nat)
    | Lose(packetNumber: nat)
    | AppLimited

  function Apply(s: State, op: Op): State
    requires WellFormed(s)
  {
    match op
    case Send(time, p, bytes, inFlight, retransmittable) => Sent(s, time, p, bytes, inFlight, retransmittable)
    case Ack(time, p) => Acked(s, time, p).0
    case Lose(p) => Lost(s, p).0
    case AppLimited => LimitedByApp(s)
  }

  lemma {:induction false} ApplyKeepsWellFormed(s: State, op: Op)
    requires WellFormed(s)
    ensures WellFormed(Apply(s, op))
  {
    match op
    case Send(time, p, bytes, inFlight, retransmittable) =>
      SendKeepsWellFormed(s, time, p, bytes, inFlight, retransmittable);
    case Ack(time, p) => AckAndLossKeepWellFormed(s, time, p);
    case Lose(p) => AckAndLossKeepWellFormed(s, 0, p);
    case AppLimited => assert forall p :: p in s.stats ==> SnapshotOk(s, s.stats[p]);
  }

  /** The state after any operations; in every reachable state the slopes are well formed. */
  function Run(ops: seq<Op>): (s: State)
    ensures WellFormed(s)
  {
    if ops == [] then INITIAL
    else
      ApplyKeepsWellFormed(Run(ops[..|ops| - 1]), ops[|ops| - 1]);
      Apply(Run(ops[..|ops| - 1]), ops[|ops| - 1])
  }

  /** Every packet is sent under a number of its own. */
  ghost predicate FreshNumbers(ops: seq<Op>) {
    forall i, j :: 0 <= i < j < |ops| && ops[i].Send? && ops[j].Send? ==> ops[i].packetNumber != ops[j].packetNumber
  }

  /** Operation i sends this packet, and no later one acknowledges or loses it. */
  ghost predicate OutstandingSince(ops: seq<Op>, p: nat, i: nat) {
    && i < |ops| && ops[i].Send? && ops[i].isRetransmittable && ops[i].packetNumber == p
    && forall k :: i < k < |ops| && (ops[k].Ack? || ops[k].Lose?) ==> ops[k].packetNumber != p
  }

  lemma {:induction false} TrackedIsOutstanding(ops: seq<Op>, p: nat)
    requires FreshNumbers(ops)
    ensures p in Run(ops).stats <==> exists i: nat :: OutstandingSince(ops, p, i)
    ensures forall i: nat :: OutstandingSince(ops, p, i) ==> Run(ops).stats[p].size == ops[i].bytes
  {
    hide WellFormed;
    if ops != [] {
      var n, init, op := |ops| - 1, ops[..|ops| - 1], ops[|ops| - 1];
      TrackedIsOutstanding(init, p);
      forall i: nat | i < n
        ensures OutstandingSince(ops, p, i) <==>
            OutstandingSince(init, p, i) && !((op.Ack? || op.Lose?) && op.packetNumber == p)
      {
        assert OutstandingSince(ops, p, i) ==> forall k :: i < k < n ==> ops[k] == init[k];
      }
      if op.Send? && op.packetNumber == p {
        forall i: nat ensures !OutstandingSince(init, p, i) {}
        assert OutstandingSince(ops, p, n) <==> op.isRetransmittable;
      } else {
        assert !OutstandingSince(ops, p, n);
        if p in Run(ops).stats {
          var i: nat :| OutstandingSince(init, p, i);
          assert OutstandingSince(ops, p, i);
        }
      }
    }
  }

  /** After any operations with fresh numbers, sent bytes are acked bytes, lost bytes and outstanding bytes. */
  lemma {:induction false} BytesAreConserved(ops: seq<Op>)
    requires FreshNumbers(ops)
    ensures Conserved(Run(ops))
  {
    if ops != [] {
      var init, op := ops[..|ops| - 1], ops[|ops| - 1];
      BytesAreConserved(init);
      match op
      case Send(time, p, bytes, inFlight, retransmittable) =>
        TrackedIsOutstanding(init, p);
        assert forall i: nat :: !OutstandingSince(init, p, i);
        SendConservesIff(Run(init), time, p, bytes, inFlight, retransmittable);
      case Ack(time, p) => AckAndLossConserve(Run(init), time, p);
      case Lose(p) => AckAndLossConserve(Run(init), 0, p);
      case AppLimited =>
    }
  }
}
