/**
 Which packet's send state a congestion event reports, told from the records that the sampler
 holds before the event (congestion_meta2/bandwidth_sampler.go:597-663, 761-831).
 */
module SamplerReports {
  import opened Wrappers
  import opened Arithmetic
  import opened BandwidthSamplers

  type Records = map<int, Snapshot>

  /** The ack of this packet yields a sample: it is tracked, and time has passed since its slope began. */
  predicate Samples(live: Records, ackTime: nat, packetNumber: nat) {
    && packetNumber in live && live[packetNumber].lastAckedPacketSentTime != UNSET_TIME
    && ackTime > live[packetNumber].lastAckedPacketAckTime
  }

  ghost predicate SamplesNone(live: Records, ackTime: nat, acked: seq<AckedPacket>) {
    forall i :: 0 <= i < |acked| ==> !Samples(live, ackTime, acked[i].packetNumber)
  }

  ghost predicate TracksNone(live: Records, lost: seq<LostPacket>) {
    forall i :: 0 <= i < |lost| ==> lost[i].packetNumber !in live
  }

  /** The position of the last acknowledged packet whose ack yields a sample. */
  function LastSampled(live: Records, ackTime: nat, acked: seq<AckedPacket>): (last: Option<nat>)
    ensures last.None? <==> SamplesNone(live, ackTime, acked)
    ensures last.Some? ==>
              && last.value < |acked| && Samples(live, ackTime, acked[last.value].packetNumber)
              && forall i :: last.value < i < |acked| ==> !Samples(live, ackTime, acked[i].packetNumber)
  {
    if acked == [] then None
    else if Samples(live, ackTime, acked[|acked| - 1].packetNumber) then Some(|acked| - 1)
    else LastSampled(live, ackTime, acked[..|acked| - 1])
  }

  /** The position of the last lost packet that is tracked. */
  function LastTracked(live: Records, lost: seq<LostPacket>): (last: Option<nat>)
    ensures last.None? <==> TracksNone(live, lost)
    ensures last.Some? ==>
              && last.value < |lost| && lost[last.value].packetNumber in live
              && forall i :: last.value < i < |lost| ==> lost[i].packetNumber !in live
  {
    if lost == [] then None
    else if lost[|lost| - 1].packetNumber in live then Some(|lost| - 1)
    else LastTracked(live, lost[..|lost| - 1])
  }

  /** No lost packet has a larger number than the acknowledged ones, going by the last entry of each list. */
  predicate AckedIsLarger(acked: seq<AckedPacket>, lost: seq<LostPacket>)
    requires acked != []
  {
    lost == [] || lost[|lost| - 1].packetNumber <= acked[|acked| - 1].packetNumber
  }

  /**
   The packet whose send state an event reports: the last one whose ack yields a sample, or the
   last lost one that is tracked. Where there are both, the last entries of the two lists decide,
   tracked or not.
   */
  function Reported(live: Records, ackTime: nat, acked: seq<AckedPacket>, lost: seq<LostPacket>): (q: Option<nat>)
    ensures q.Some? ==> q.value in live
  {
    var sampled, tracked := LastSampled(live, ackTime, acked), LastTracked(live, lost);
    if sampled.Some? && (tracked.None? || AckedIsLarger(acked, lost)) then Some(acked[sampled.value].packetNumber)
    else if tracked.Some? then Some(lost[tracked.value].packetNumber)
    else None
  }

  function StateAtSend(live: Records, q: Option<nat>): SendTimeState {
    if q.Some? && q.value in live then live[q.value].sendTimeState else NO_SEND_STATE
  }

  // ---------- The two loops ----------

  lemma {:induction false} RecordIsOk(s: State, q: nat)
    requires WellFormed(s) && q in s.tracked.live
    ensures SnapshotOk(s, s.tracked.live[q])
  {
  }

  lemma {:induction false} LossesReport(s: State, lost: seq<LostPacket>)
    requires WellFormed(s)
    ensures var last := LastTracked(s.tracked.live, lost);
            LoseAll(s, lost).1
              == StateAtSend(s.tracked.live, if last.Some? then Some(lost[last.value].packetNumber) else None)
    ensures LoseAll(s, lost).1.isValid <==> !TracksNone(s.tracked.live, lost)
  {
    hide WellFormed;
    if lost != [] {
      var n := |lost| - 1;
      LossesReport(s, lost[..n]);
      LoseAllKeepsWellFormed(s, lost[..n]);
      if lost[n].packetNumber in s.tracked.live {
        RecordIsOk(s, lost[n].packetNumber);
      }
    }
  }

  /** An ack leaves the records alone, and reports the packet's state if it yields a sample. */
  lemma {:induction false} AckReports(s: State, ackTime: nat, packetNumber: nat)
    requires WellFormed(s)
    ensures var (after, sample) := Acked(s, ackTime, packetNumber);
            && after.tracked == s.tracked
            && if Samples(s.tracked.live, ackTime, packetNumber)
               then sample.stateAtSend == s.tracked.live[packetNumber].sendTimeState && sample.stateAtSend.isValid
               else !sample.stateAtSend.isValid
  {
    hide BandwidthFromDelta, SendRate, MinRate;
    if packetNumber in s.tracked.live {
      RecordIsOk(s, packetNumber);
    }
  }

  lemma {:induction false} AcksReport(s: State, ackTime: nat, acked: seq<AckedPacket>)
    requires WellFormed(s)
    ensures AckAll(s, ackTime, acked).0.tracked == s.tracked
    ensures var last := LastSampled(s.tracked.live, ackTime, acked);
            AckAll(s, ackTime, acked).1.lastPacketSendState
              == StateAtSend(s.tracked.live, if last.Some? then Some(acked[last.value].packetNumber) else None)
    ensures AckAll(s, ackTime, acked).1.lastPacketSendState.isValid <==> !SamplesNone(s.tracked.live, ackTime, acked)
  {
    hide WellFormed, Acked;
    if acked != [] {
      var n := |acked| - 1;
      AcksReport(s, ackTime, acked[..n]);
      AckReports(AckAll(s, ackTime, acked[..n]).0, ackTime, acked[n].packetNumber);
    }
  }

  // ---------- The sample of an event ----------

  /** The bytes of the tracked packets among these acks. */
  function TrackedBytes(live: Records, acked: seq<AckedPacket>): nat {
    if acked == [] then 0
    else
      var q := acked[|acked| - 1].packetNumber;
      TrackedBytes(live, acked[..|acked| - 1]) + if q in live then live[q].size else 0
  }

  /** The acked total once ack m of the event has been counted. */
  function TotalAt(s: State, acked: seq<AckedPacket>, m: nat): nat
    requires m < |acked|
  {
    s.totalBytesAcked + TrackedBytes(s.tracked.live, acked[..m + 1])
  }

  /** Ack m yields a sample of this rate: exactly that of its smaller slope. */
  ghost predicate RateIs(s: State, ackTime: nat, acked: seq<AckedPacket>, m: nat, rate: nat) {
    && m < |acked| && Samples(s.tracked.live, ackTime, acked[m].packetNumber)
    && var sent := s.tracked.live[acked[m].packetNumber];
       IsSmallerRate(rate, TotalAt(s, acked, m) - sent.sendTimeState.totalBytesAcked,
                     ackTime - sent.lastAckedPacketAckTime,
                     sent.sendTimeState.totalBytesSent - sent.totalBytesSentAtLastAckedPacket,
                     sent.sentTime - sent.lastAckedPacketSentTime)
  }

  /** Ack m yields a sample of this round trip, which is not zero: the time since the packet's own send. */
  ghost predicate RttIs(live: Records, ackTime: nat, acked: seq<AckedPacket>, m: nat, rtt: int) {
    && m < |acked| && Samples(live, ackTime, acked[m].packetNumber)
    && rtt == ackTime - live[acked[m].packetNumber].sentTime && rtt != 0
  }

  /** The least round trip of the acks, and none if they yield none. */
  ghost predicate IsLeastRtt(live: Records, ackTime: nat, acked: seq<AckedPacket>, rtt: Option<int>) {
    && (forall m: nat, r: int :: RttIs(live, ackTime, acked, m, r) ==> rtt.Some? && rtt.value <= r)
    && (rtt.Some? ==> exists m: nat :: RttIs(live, ackTime, acked, m, rtt.value))
  }

  /**
   The largest rate of the acks, and whether the packet of the first one to reach it was sent in an
   app-limited phase; zero if they yield none.
   */
  ghost predicate IsBestRate(s: State, ackTime: nat, acked: seq<AckedPacket>, e: EventSample) {
    && (forall m: nat, r: nat :: RateIs(s, ackTime, acked, m, r) ==> r <= e.sampleMaxBandwidth)
    && (if e.sampleMaxBandwidth == 0 then !e.sampleIsAppLimited
        else exists m: nat :: FirstOfRate(s, ackTime, acked, m, e))
  }

  ghost predicate FirstOfRate(s: State, ackTime: nat, acked: seq<AckedPacket>, m: nat, e: EventSample) {
    && RateIs(s, ackTime, acked, m, e.sampleMaxBandwidth)
    && e.sampleIsAppLimited == s.tracked.live[acked[m].packetNumber].sendTimeState.isAppLimited
    && forall k: nat :: k < m ==> !RateIs(s, ackTime, acked, k, e.sampleMaxBandwidth)
  }

  lemma {:induction false} RateIsUnique(rate: nat, other: nat, ackedBytes: int, ackedTime: int, sentBytes: int,
                                        sentTime: int)
    requires IsSmallerRate(rate, ackedBytes, ackedTime, sentBytes, sentTime)
    requires IsSmallerRate(other, ackedBytes, ackedTime, sentBytes, sentTime)
    ensures rate == other
  {
    if rate / 8 < other / 8 {
      SmallerRateIsMet(rate, other, ackedBytes, ackedTime, sentBytes, sentTime);
    } else if other / 8 < rate / 8 {
      SmallerRateIsMet(other, rate, ackedBytes, ackedTime, sentBytes, sentTime);
    }
  }

  lemma {:induction false} SmallerRateIsMet(low: nat, high: nat, ackedBytes: int, ackedTime: int, sentBytes: int,
                                            sentTime: int)
    requires IsSmallerRate(low, ackedBytes, ackedTime, sentBytes, sentTime)
    requires IsSmallerRate(high, ackedBytes, ackedTime, sentBytes, sentTime)
    ensures high / 8 <= low / 8
  {
    if low / 8 < high / 8 {
      MulMonotone(low / 8 + 1, high / 8, ackedTime);
      if sentTime > 0 {
        MulMonotone(low / 8 + 1, high / 8, sentTime);
      }
    }
  }

  /** For the acks before the last one, the last one makes no difference. */
  lemma {:induction false} EarlierAcks(s: State, ackTime: nat, acked: seq<AckedPacket>, m: nat)
    requires acked != [] && m < |acked| - 1
    ensures forall r: nat :: RateIs(s, ackTime, acked, m, r) <==> RateIs(s, ackTime, acked[..|acked| - 1], m, r)
    ensures forall r: int :: RttIs(s.tracked.live, ackTime, acked, m, r)
                         <==> RttIs(s.tracked.live, ackTime, acked[..|acked| - 1], m, r)
  {
    hide IsSmallerRate, Samples;
    assert acked[..|acked| - 1][..m + 1] == acked[..m + 1];
  }

  /** The sample that the last of the acks yields, from the state before the first. */
  ghost predicate IsLastSample(s: State, ackTime: nat, acked: seq<AckedPacket>, sample: Sample) {
    acked != [] &&
    var n, live := |acked| - 1, s.tracked.live;
    if Samples(live, ackTime, acked[n].packetNumber)
    then && sample.stateAtSend.isValid && sample.stateAtSend == live[acked[n].packetNumber].sendTimeState
         && RateIs(s, ackTime, acked, n, sample.bandwidth)
         && sample.rtt == ackTime - live[acked[n].packetNumber].sentTime
    else !sample.stateAtSend.isValid
  }

  lemma {:induction false} SampleOfAck(s: State, ackTime: nat, q: nat)
    requires WellFormed(s) && q in s.tracked.live
    ensures SnapshotOk(s, s.tracked.live[q])
    ensures s.totalBytesAcked <= Acked(s, ackTime, q).0.totalBytesAcked
    ensures Acked(s, ackTime, q).1 == SampleOf(s.tracked.live[q], Acked(s, ackTime, q).0.totalBytesAcked, ackTime)
  {
    RecordIsOk(s, q);
  }

  lemma {:induction false} AckCounts(s: State, ackTime: nat, q: nat)
    requires WellFormed(s)
    ensures Acked(s, ackTime, q).0.totalBytesAcked
         == s.totalBytesAcked + if q in s.tracked.live then s.tracked.live[q].size else 0
  {
    if q in s.tracked.live {
      RecordIsOk(s, q);
    }
  }

  /** The bytes counted are those of the tracked packets, and the last sample is that of the last ack. */
  lemma {:induction false} AcksCount(s: State, ackTime: nat, acked: seq<AckedPacket>)
    requires WellFormed(s)
    ensures AckAll(s, ackTime, acked).0.totalBytesAcked == s.totalBytesAcked + TrackedBytes(s.tracked.live, acked)
    ensures acked != [] ==>
              var n := |acked| - 1;
              IsLastSample(s, ackTime, acked,
                           Acked(AckAll(s, ackTime, acked[..n]).0, ackTime, acked[n].packetNumber).1)
  {
    hide WellFormed, Acked, IsSmallerRate, SampleOf;
    if acked != [] {
      var n := |acked| - 1;
      AcksCount(s, ackTime, acked[..n]);
      AcksReport(s, ackTime, acked[..n]);
      var before, q := AckAll(s, ackTime, acked[..n]).0, acked[n].packetNumber;
      AckCounts(before, ackTime, q);
      AckReports(before, ackTime, q);
      assert acked[..n + 1] == acked;
      if Samples(s.tracked.live, ackTime, q) {
        SampleOfAck(before, ackTime, q);
        SampleIsSmallerSlope(s.tracked.live[q], TotalAt(s, acked, n), ackTime);
      }
    }
  }

  lemma {:induction false} MergedRtt(s: State, ackTime: nat, acked: seq<AckedPacket>, e: EventSample, sample: Sample)
    requires IsLastSample(s, ackTime, acked, sample)
    requires IsLeastRtt(s.tracked.live, ackTime, acked[..|acked| - 1], e.sampleRtt)
    ensures IsLeastRtt(s.tracked.live, ackTime, acked, Merged(e, sample).sampleRtt)
  {
    hide Samples, RateIs;
    var n, live, rtt := |acked| - 1, s.tracked.live, Merged(e, sample).sampleRtt;
    forall m: nat, r: int | RttIs(live, ackTime, acked, m, r) ensures rtt.Some? && rtt.value <= r {
      if m < n {
        EarlierAcks(s, ackTime, acked, m);
      }
    }
    if rtt.Some? {
      if rtt == e.sampleRtt {
        var m: nat :| RttIs(live, ackTime, acked[..n], m, rtt.value);
        EarlierAcks(s, ackTime, acked, m);
        assert RttIs(live, ackTime, acked, m, rtt.value);
      } else {
        assert RttIs(live, ackTime, acked, n, rtt.value);
      }
    }
  }

  lemma {:induction false} MergedRate(s: State, ackTime: nat, acked: seq<AckedPacket>, e: EventSample, sample: Sample)
    requires IsLastSample(s, ackTime, acked, sample) && IsBestRate(s, ackTime, acked[..|acked| - 1], e)
    ensures IsBestRate(s, ackTime, acked, Merged(e, sample))
  {
    hide Samples, IsSmallerRate;
    var n, f := |acked| - 1, Merged(e, sample);
    forall m: nat, r: nat | RateIs(s, ackTime, acked, m, r) ensures r <= f.sampleMaxBandwidth {
      if m < n {
        EarlierAcks(s, ackTime, acked, m);
      } else {
        SameRate(s, ackTime, acked, n, r, sample.bandwidth);
      }
    }
    if f.sampleMaxBandwidth > e.sampleMaxBandwidth {
      forall k: nat | k < n ensures !RateIs(s, ackTime, acked, k, f.sampleMaxBandwidth) {
        EarlierAcks(s, ackTime, acked, k);
      }
      assert FirstOfRate(s, ackTime, acked, n, f);
    } else if f.sampleMaxBandwidth > 0 {
      var m: nat :| FirstOfRate(s, ackTime, acked[..n], m, e);
      forall k: nat | k <= m ensures RateIs(s, ackTime, acked, k, f.sampleMaxBandwidth) <==> k == m {
        EarlierAcks(s, ackTime, acked, k);
      }
      assert FirstOfRate(s, ackTime, acked, m, f);
    }
  }

  lemma {:induction false} SameRate(s: State, ackTime: nat, acked: seq<AckedPacket>, m: nat, rate: nat, other: nat)
    requires RateIs(s, ackTime, acked, m, rate) && RateIs(s, ackTime, acked, m, other)
    ensures rate == other
  {
    var sent := s.tracked.live[acked[m].packetNumber];
    RateIsUnique(rate, other, TotalAt(s, acked, m) - sent.sendTimeState.totalBytesAcked,
                 ackTime - sent.lastAckedPacketAckTime,
                 sent.sendTimeState.totalBytesSent - sent.totalBytesSentAtLastAckedPacket,
                 sent.sentTime - sent.lastAckedPacketSentTime);
  }

  /**
   The sample of an event, told from the records before it: the least round trip of its acks, and
   the largest rate, each exactly the smaller of the packet's two slopes.
   */
  lemma {:induction false} AcksSample(s: State, ackTime: nat, acked: seq<AckedPacket>)
    requires WellFormed(s)
    ensures IsLeastRtt(s.tracked.live, ackTime, acked, AckAll(s, ackTime, acked).1.sampleRtt)
    ensures IsBestRate(s, ackTime, acked, AckAll(s, ackTime, acked).1)
  {
    hide WellFormed, Acked, IsLeastRtt, IsBestRate, IsLastSample, Merged;
    if acked == [] {
      NoAcksNoSample(s, ackTime);
    } else {
      var n := |acked| - 1;
      AcksSample(s, ackTime, acked[..n]);
      AcksCount(s, ackTime, acked);
      var (before, e) := AckAll(s, ackTime, acked[..n]);
      MergedRtt(s, ackTime, acked, e, Acked(before, ackTime, acked[n].packetNumber).1);
      MergedRate(s, ackTime, acked, e, Acked(before, ackTime, acked[n].packetNumber).1);
    }
  }

  lemma {:induction false} NoAcksNoSample(s: State, ackTime: nat)
    ensures IsLeastRtt(s.tracked.live, ackTime, [], None) && IsBestRate(s, ackTime, [], NO_EVENT_SAMPLE)
  {
  }

  // ---------- The event ----------

  /** An event reports the send state of that packet, and none when there is no such packet. */
  lemma {:induction false} EventReports(s: State, ackTime: nat, acked: seq<AckedPacket>, lost: seq<LostPacket>)
    requires WellFormed(s)
    ensures CongestionEvent(s, ackTime, acked, lost).1.lastPacketSendState
         == StateAtSend(s.tracked.live, Reported(s.tracked.live, ackTime, acked, lost))
    ensures CongestionEvent(s, ackTime, acked, lost).1.lastPacketSendState.isValid
       <==> Reported(s.tracked.live, ackTime, acked, lost).Some?
  {
    hide WellFormed, SamplesNone, TracksNone;
    LossesReport(s, lost);
    LoseAllKeepsWellFormed(s, lost);
    AcksReport(LoseAll(s, lost).0, ackTime, acked);
  }

  /** What the acks of an event report by themselves. */
  function AckedState(s: State, ackTime: nat, acked: seq<AckedPacket>, lost: seq<LostPacket>): SendTimeState
    requires WellFormed(s)
  {
    LoseAllKeepsWellFormed(s, lost);
    AckAll(LoseAll(s, lost).0, ackTime, acked).1.lastPacketSendState
  }

  /**
   With acks, an event reports what they report exactly when no lost packet is tracked, or some
   ack yields a sample and the last lost number is no larger than the last acknowledged one, or
   acks and losses report the same.
   */
  lemma {:induction false} AckedStateIsReportedIff(s: State, ackTime: nat, acked: seq<AckedPacket>,
                                                   lost: seq<LostPacket>)
    requires WellFormed(s) && acked != []
    ensures CongestionEvent(s, ackTime, acked, lost).1.lastPacketSendState == AckedState(s, ackTime, acked, lost)
       <==> || TracksNone(s.tracked.live, lost)
            || (!SamplesNone(s.tracked.live, ackTime, acked) && AckedIsLarger(acked, lost))
            || AckedState(s, ackTime, acked, lost) == LoseAll(s, lost).1
  {
    hide WellFormed, SamplesNone;
    LossesReport(s, lost);
    LoseAllKeepsWellFormed(s, lost);
    AcksReport(LoseAll(s, lost).0, ackTime, acked);
  }

  // ---------- The documented report ----------

  /**
   The packet of the handler's comment: the largest acknowledged one, or without acks the largest
   lost one. The lists are in order, so it is the last.
   */
  function Documented(acked: seq<AckedPacket>, lost: seq<LostPacket>): nat
    requires acked != [] || lost != []
  {
    if acked != [] then acked[|acked| - 1].packetNumber else lost[|lost| - 1].packetNumber
  }

  /** Different packets have different send states. */
  ghost predicate Distinct(live: Records) {
    forall p, q :: p in live && q in live && p != q ==> live[p].sendTimeState != live[q].sendTimeState
  }

  /** When an event reports the packet of the comment, or neither knows a state. */
  ghost predicate AsDocumented(live: Records, ackTime: nat, acked: seq<AckedPacket>, lost: seq<LostPacket>)
    requires acked != [] || lost != []
  {
    if acked == [] then lost[|lost| - 1].packetNumber in live || TracksNone(live, lost)
    else if Documented(acked, lost) in live
    then Samples(live, ackTime, Documented(acked, lost)) && (AckedIsLarger(acked, lost) || TracksNone(live, lost))
    else SamplesNone(live, ackTime, acked) && TracksNone(live, lost)
  }

  /**
   The handler's comment is right exactly when the largest packet's ack yields a sample and no
   tracked loss overtakes it, where that packet is tracked; otherwise when nothing else is
   sampled or tracked either.
   */
  lemma {:induction false} DocumentedIsReportedIff(s: State, ackTime: nat, acked: seq<AckedPacket>,
                                                   lost: seq<LostPacket>)
    requires WellFormed(s) && Distinct(s.tracked.live) && (acked != [] || lost != [])
    requires acked != [] ==> forall i :: 0 <= i < |lost| ==> lost[i].packetNumber != Documented(acked, lost)
    ensures CongestionEvent(s, ackTime, acked, lost).1.lastPacketSendState
         == StateAtSend(s.tracked.live, Some(Documented(acked, lost)))
       <==> AsDocumented(s.tracked.live, ackTime, acked, lost)
  {
    hide WellFormed;
    EventReports(s, ackTime, acked, lost);
    var d := Documented(acked, lost);
    if d in s.tracked.live {
      RecordIsOk(s, d);
    }
  }
}
