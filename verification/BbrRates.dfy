/**
 The bandwidth estimate of the BBR sender against the bytes of a run: it claims no more than was
 acknowledged over some stretch of time, nor than was sent over another
 (congestion_meta2/bbr_sender.go:437-445, bandwidth_sampler.go:553-595, 761-831).
 */
module BbrRates {
  import opened Wrappers
  import opened BandwidthSamplers
  import opened SamplerReports
  import opened BbrModel
  import opened BbrInvariants
  import opened BbrTraces
  import opened BbrEstimates
  import opened BbrReports
  import WindowedFilters

  // ---------- Where slopes begin ----------

  function TimeOf(a: Action): nat
    requires !a.Resize?
  {
    if a.Send? then a.sentTime else a.event.eventTime
  }

  /**
   The anchor was set by action a, when the latest packet that is acknowledged or opens the pipe
   was the one that action b sent.
   */
  ghost predicate SetBy(p: Params, mds: nat, run: seq<Action>, anchor: Anchor, a: nat, b: nat)
    requires ParamsOk(p) && ValidRun(run)
  {
    && b <= a < |run| && !run[a].Resize? && run[b].Send?
    && anchor.ackTime == TimeOf(run[a]) && anchor.sentTime == run[b].sentTime
    && anchor.totalBytesSent == Before(p, mds, run, b + 1).sampler.totalBytesSent
  }

  lemma {:induction false} SendAnchors(s: State, send: Action)
    requires send.Send?
    ensures var t := Sent(s, send.sentTime, send.packetNumber, send.bytes, send.bytesInFlight, send.isRetransmittable);
            if send.isRetransmittable && send.bytesInFlight == 0
            then AnchorOf(t) == Anchor(send.sentTime, send.sentTime, s.totalBytesSent + send.bytes)
            else AnchorOf(t) == AnchorOf(s)
  {
  }

  lemma {:induction false} OpensPipe(p: Params, mds: nat, run: seq<Action>, i: nat)
    requires ParamsOk(p) && ValidRun(run) && i < |run| && run[i].Send? && run[i].isRetransmittable
    ensures var s, a := Before(p, mds, run, i).sampler, run[i];
            SetBy(p, mds, run, Anchor(a.sentTime, a.sentTime, s.totalBytesSent + a.bytes), i, i)
  {
    hide Before, ValidRun;
    TotalsStep(p, mds, run, i);
  }

  lemma {:induction false} AckedWasSent(p: Params, mds: nat, run: seq<Action>, i: nat, q: int) returns (b: nat)
    requires ParamsOk(p) && ValidRun(run) && i < |run| && run[i].Congestion?
    requires q in Before(p, mds, run, i).sampler.tracked.live
    ensures var record := Before(p, mds, run, i).sampler.tracked.live[q];
            SetBy(p, mds, run, AckedAnchor(record, run[i].event.eventTime), i, b)
  {
    hide Before, ValidRun;
    b := TrackedWasSent(p, mds, run, i, q);
    TotalsStep(p, mds, run, b);
  }

  /** A known anchor was set by some action, and nothing has been counted as acknowledged since. */
  lemma {:induction false} AnchorWasSet(p: Params, mds: nat, run: seq<Action>, n: nat) returns (a: nat, b: nat)
    requires ParamsOk(p) && ValidRun(run) && n <= |run|
    requires Before(p, mds, run, n).sampler.lastAckedPacketSentTime != UNSET_TIME
    ensures a < n && SetBy(p, mds, run, AnchorOf(Before(p, mds, run, n).sampler), a, b)
    ensures Before(p, mds, run, a + 1).sampler.totalBytesAcked == Before(p, mds, run, n).sampler.totalBytesAcked
    decreases n
  {
    hide Before, OnCongestionEvent, WellFormed, Sent, ValidRun, LastSent, ModesAgree, WindowsOk, MarkersSent,
         WholeBytes, SetBy;
    if n == 0 {
      NothingTracked(p, mds, run);
    } else {
      BeforeStep(p, mds, run, n - 1);
      TotalsStep(p, mds, run, n - 1);
      var k, action := Before(p, mds, run, n - 1), run[n - 1];
      if action.Send? {
        SendAnchors(k.sampler, action);
        if action.isRetransmittable && action.bytesInFlight == 0 {
          a, b := n - 1, n - 1;
          OpensPipe(p, mds, run, a);
          return;
        }
      } else if action.Congestion? {
        NoEmptyEvent(run, n - 1);
        var sampled, r := EventOnly(p, k, action.event);
        if r.Some? {
          a := n - 1;
          b := AckedWasSent(p, mds, run, n - 1, r.value);
          return;
        }
      }
      a, b := AnchorWasSet(p, mds, run, n - 1);
    }
  }

  /** A record holds the anchor and the totals just after its packet was sent. */
  lemma {:induction false} RecordHoldsAnchor(p: Params, mds: nat, run: seq<Action>, j: nat)
    requires ParamsOk(p) && ValidRun(run) && j < |run| && run[j].Send? && run[j].isRetransmittable
    ensures var s, record := Before(p, mds, run, j + 1).sampler, RecordOf(Before(p, mds, run, j).sampler, run[j]);
            && record.sentTime == run[j].sentTime
            && AnchorOf(s) == Anchor(record.lastAckedPacketSentTime, record.lastAckedPacketAckTime,
                                     record.totalBytesSentAtLastAckedPacket)
            && s.totalBytesSent == record.sendTimeState.totalBytesSent
            && s.totalBytesAcked == record.sendTimeState.totalBytesAcked
  {
    hide Before, ValidRun;
    BeforeStep(p, mds, run, j);
  }

  // ---------- Rates over a run ----------

  /** Ack m of event i is of the packet that action j sent. */
  ghost predicate Acknowledges(run: seq<Action>, i: nat, m: nat, j: nat) {
    && j < i < |run| && run[i].Congestion? && m < |run[i].event.acked|
    && SentAt(run, j, run[i].event.acked[m].packetNumber)
  }

  /** The bytes acknowledged after action a, up to ack m of event i. */
  function AckedBetween(p: Params, mds: nat, run: seq<Action>, a: nat, i: nat, m: nat): int
    requires ParamsOk(p) && ValidRun(run) && a < |run| && i < |run| && run[i].Congestion?
    requires m < |run[i].event.acked|
  {
    TotalAt(Before(p, mds, run, i).sampler, run[i].event.acked, m) - Before(p, mds, run, a + 1).sampler.totalBytesAcked
  }

  /**
   The rate is exactly the smaller of two: of the bytes acknowledged from action a to ack m of event
   i, and of the bytes sent from action b to the packet of that ack, unless no time passed.
   */
  ghost predicate Slopes(p: Params, mds: nat, run: seq<Action>, rate: nat, a: nat, i: nat, m: nat, b: nat, j: nat)
    requires ParamsOk(p) && ValidRun(run)
  {
    && b <= a <= j && Acknowledges(run, i, m, j) && !run[a].Resize? && run[b].Send?
    && IsSmallerRate(rate, AckedBetween(p, mds, run, a, i, m), run[i].event.eventTime - TimeOf(run[a]),
                     Before(p, mds, run, j + 1).sampler.totalBytesSent
                     - Before(p, mds, run, b + 1).sampler.totalBytesSent,
                     run[j].sentTime - run[b].sentTime)
    && AckedBetween(p, mds, run, a, i, m)
       <= Before(p, mds, run, i + 1).sampler.totalBytesAcked - Before(p, mds, run, a + 1).sampler.totalBytesAcked
  }

  lemma {:induction false} TrackedBytesGrow(live: Records, acked: seq<AckedPacket>, m: nat)
    requires m <= |acked|
    ensures TrackedBytes(live, acked[..m]) <= TrackedBytes(live, acked)
  {
    if m < |acked| {
      assert acked[..|acked| - 1][..m] == acked[..m];
      TrackedBytesGrow(live, acked[..|acked| - 1], m);
    } else {
      assert acked[..m] == acked;
    }
  }

  /** What the sample of an event is, told from the state before it. */
  lemma {:induction false} SampledSample(p: Params, k: Stack, e: Event)
    requires WellFormed(k.sampler)
    ensures IsLeastRtt(k.sampler.tracked.live, e.eventTime, e.acked, SampleAt(p, k, e).sampleRtt)
    ensures IsBestRate(k.sampler, e.eventTime, e.acked, SampleAt(p, k, e))
    ensures SampledEvent(p, k, e).0.totalBytesAcked
         == k.sampler.totalBytesAcked + TrackedBytes(k.sampler.tracked.live, e.acked)
  {
    hide WellFormed, IsAppLimited, IsLeastRtt, LoseAll;
    OthersKeepWellFormed(k.sampler, 0, 0, 0);
    var s := if IsAppLimited(p, k.sender, e.priorInFlight) then LimitedByApp(k.sampler) else k.sampler;
    LoseAllKeepsWellFormed(s, e.lost);
    var lost := LoseAll(s, e.lost).0;
    AcksSample(lost, e.eventTime, e.acked);
    AcksCount(lost, e.eventTime, e.acked);
    SameBest(k.sampler, lost, e.eventTime, e.acked, AckAll(lost, e.eventTime, e.acked).1, SampleAt(p, k, e));
  }

  lemma {:induction false} SameBest(s: State, t: State, ackTime: nat, acked: seq<AckedPacket>, e: EventSample,
                                    f: EventSample)
    requires s.tracked == t.tracked && s.totalBytesAcked == t.totalBytesAcked
    requires f.sampleMaxBandwidth == e.sampleMaxBandwidth && f.sampleIsAppLimited == e.sampleIsAppLimited
    requires IsBestRate(t, ackTime, acked, e)
    ensures IsBestRate(s, ackTime, acked, f)
  {
    hide IsSmallerRate, Samples;
    forall m: nat, r: nat ensures RateIs(s, ackTime, acked, m, r) <==> RateIs(t, ackTime, acked, m, r) {}
    if f.sampleMaxBandwidth > 0 {
      var m: nat :| FirstOfRate(t, ackTime, acked, m, e);
      assert FirstOfRate(s, ackTime, acked, m, f);
    }
  }

  lemma {:induction false} RecordSlopes(p: Params, mds: nat, run: seq<Action>, i: nat, m: nat, j: nat, rate: nat)
    returns (a: nat, b: nat)
    requires ParamsOk(p) && ValidRun(run) && Acknowledges(run, i, m, j)
    requires RateIs(Before(p, mds, run, i).sampler, run[i].event.eventTime, run[i].event.acked, m, rate)
    requires var q := run[j].packetNumber;
             RecordedAt(p, mds, run, j, q, Before(p, mds, run, i).sampler.tracked.live[q])
    requires TotalAt(Before(p, mds, run, i).sampler, run[i].event.acked, m)
          <= Before(p, mds, run, i + 1).sampler.totalBytesAcked
    ensures Slopes(p, mds, run, rate, a, i, m, b, j)
  {
    hide Before, ValidRun, RecordOf, IsSmallerRate, TotalAt;
    RecordHoldsAnchor(p, mds, run, j);
    a, b := AnchorWasSet(p, mds, run, j + 1);
  }

  /** An event with a positive sample has such slopes, and no ack of it yields a larger rate. */
  lemma {:induction false} EventSlopes(p: Params, mds: nat, run: seq<Action>, i: nat)
    returns (a: nat, m: nat, b: nat, j: nat)
    requires ParamsOk(p) && ValidRun(run) && i < |run| && run[i].Congestion?
    requires SampleAt(p, Before(p, mds, run, i), run[i].event).sampleMaxBandwidth > 0
    ensures var k, e := Before(p, mds, run, i), run[i].event;
            var rate := SampleAt(p, k, e).sampleMaxBandwidth;
            && Slopes(p, mds, run, rate, a, i, m, b, j)
            && forall n: nat, r: nat :: RateIs(k.sampler, e.eventTime, e.acked, n, r) ==> r <= rate
  {
    hide Before, ValidRun, RecordOf, WellFormed, SampleAt, OnCongestionEvent, IsLeastRtt, IsSmallerRate;
    var k, e := Before(p, mds, run, i), run[i].event;
    NoEmptyEvent(run, i);
    BeforeStep(p, mds, run, i);
    SampledSample(p, k, e);
    m :| FirstOfRate(k.sampler, e.eventTime, e.acked, m, SampleAt(p, k, e));
    j := TrackedWasSent(p, mds, run, i, e.acked[m].packetNumber);
    var _, _ := EventOnly(p, k, e);
    TrackedBytesGrow(k.sampler.tracked.live, e.acked, m + 1);
    a, b := RecordSlopes(p, mds, run, i, m, j, SampleAt(p, k, e).sampleMaxBandwidth);
  }

  // ---------- The estimate ----------

  /** Every entry of the history is the best sample of an event, with the round it led to. */
  lemma {:induction false} HistoryIsOfEvents(p: Params, mds: nat, run: seq<Action>, n: nat, m: nat)
    returns (i: nat)
    requires ParamsOk(p) && ValidRun(run) && n <= |run| && m < |History(p, mds, run, n)|
    ensures i < n && run[i].Congestion?
    ensures History(p, mds, run, n)[m]
         == WindowedFilters.Entry(SampleAt(p, Before(p, mds, run, i), run[i].event).sampleMaxBandwidth,
                                  Before(p, mds, run, i + 1).sender.roundTripCount)
    decreases n
  {
    hide Before, ValidRun, SampleAt, Feeds;
    if m < |History(p, mds, run, n - 1)| {
      i := HistoryIsOfEvents(p, mds, run, n - 1, m);
    } else {
      i := n - 1;
    }
  }

  /**
   A positive bandwidth estimate is a rate that the run carried: that of an event i at most ten
   rounds back from the newest one fed to the filter, exactly the smaller of the rate of bytes
   acknowledged over some time up to an ack of that event, and of bytes sent over some time up to
   the send of its packet.
   */
  lemma {:induction false} EstimateHasSlopes(p: Params, mds: nat, run: seq<Action>, n: nat)
    returns (a: nat, i: nat, m: nat, b: nat, j: nat)
    requires ParamsOk(p) && ValidRun(run) && n <= |run| && Before(p, mds, run, n).filter[0].sample > 0
    ensures Slopes(p, mds, run, Before(p, mds, run, n).filter[0].sample, a, i, m, b, j) && i < n
    ensures var h := History(p, mds, run, n);
            h != [] && h[|h| - 1].time <= Before(p, mds, run, i + 1).sender.roundTripCount + 10
  {
    hide Before, ValidRun, Slopes, History, SampleAt, RateIs;
    HistoryIsNotEmpty(p, mds, run, n);
    var x := EstimateIsWindowedMaximum(p, mds, run, n);
    i := HistoryIsOfEvents(p, mds, run, n, x);
    a, m, b, j := EventSlopes(p, mds, run, i);
  }

  lemma {:induction false} HistoryIsNotEmpty(p: Params, mds: nat, run: seq<Action>, n: nat)
    requires ParamsOk(p) && ValidRun(run) && n <= |run| && Before(p, mds, run, n).filter[0].sample > 0
    ensures History(p, mds, run, n) != []
  {
    hide Before, History;
    FilterIsRunOnHistory(p, mds, run, n);
  }

  // ---------- Round trips ----------

  /** Ack m of event i, of the packet that action j sent, yields this round trip: the time since that send. */
  ghost predicate PacketRtt(p: Params, mds: nat, run: seq<Action>, i: nat, m: nat, j: nat, rtt: int)
    requires ParamsOk(p) && ValidRun(run)
  {
    && Acknowledges(run, i, m, j) && rtt == run[i].event.eventTime - run[j].sentTime && rtt != 0
    && Samples(Before(p, mds, run, i).sampler.tracked.live, run[i].event.eventTime, run[j].packetNumber)
  }

  lemma {:induction false} SentOnce(run: seq<Action>, i: nat, j: nat, q: int)
    requires ValidRun(run) && SentAt(run, i, q) && SentAt(run, j, q)
    ensures i == j
  {
  }

  /** The round trip that a record gives is that of the packet's own send. */
  lemma {:induction false} RttIsSinceSend(p: Params, mds: nat, run: seq<Action>, i: nat, m: nat, rtt: int)
    returns (j: nat)
    requires ParamsOk(p) && ValidRun(run) && i < |run| && run[i].Congestion?
    requires RttIs(Before(p, mds, run, i).sampler.tracked.live, run[i].event.eventTime, run[i].event.acked, m, rtt)
    ensures PacketRtt(p, mds, run, i, m, j, rtt)
  {
    hide Before, ValidRun;
    j := TrackedWasSent(p, mds, run, i, run[i].event.acked[m].packetNumber);
  }

  lemma {:induction false} RttOfSend(p: Params, mds: nat, run: seq<Action>, i: nat, m: nat, j: nat, rtt: int)
    requires ParamsOk(p) && ValidRun(run) && PacketRtt(p, mds, run, i, m, j, rtt)
    ensures RttIs(Before(p, mds, run, i).sampler.tracked.live, run[i].event.eventTime, run[i].event.acked, m, rtt)
  {
    hide Before, ValidRun;
    var j' := TrackedWasSent(p, mds, run, i, run[j].packetNumber);
    SentOnce(run, j, j', run[j].packetNumber);
  }

  /** No packet of event i gives a round trip less than this, and if there is one, some packet gives this. */
  ghost predicate IsLeastOf(p: Params, mds: nat, run: seq<Action>, i: nat, rtt: Option<int>)
    requires ParamsOk(p) && ValidRun(run)
  {
    && (forall m: nat, j: nat, r: int :: PacketRtt(p, mds, run, i, m, j, r) ==> rtt.Some? && rtt.value <= r)
    && (rtt.Some? ==> exists m: nat, j: nat :: PacketRtt(p, mds, run, i, m, j, rtt.value))
  }

  /** The round trip that an event samples is the least time since the send of a packet whose ack yields a sample. */
  lemma {:induction false} EventRtt(p: Params, mds: nat, run: seq<Action>, i: nat)
    requires ParamsOk(p) && ValidRun(run) && i < |run| && run[i].Congestion?
    ensures IsLeastOf(p, mds, run, i, RttAt(p, mds, run, i))
  {
    hide Before, ValidRun, PacketRtt, SampleAt, WellFormed, IsBestRate;
    var k, e, rtt := Before(p, mds, run, i), run[i].event, RttAt(p, mds, run, i);
    SampledSample(p, k, e);
    forall m: nat, j: nat, r: int | PacketRtt(p, mds, run, i, m, j, r) ensures rtt.Some? && rtt.value <= r {
      RttOfSend(p, mds, run, i, m, j, r);
    }
    if rtt.Some? {
      var m: nat :| RttIs(k.sampler.tracked.live, e.eventTime, e.acked, m, rtt.value);
      var j := RttIsSinceSend(p, mds, run, i, m, rtt.value);
    }
  }

  /**
   A known round-trip estimate is the time from the send of some packet to its ack, and no packet
   acknowledged by that event or since gave less.
   */
  lemma {:induction false} MinRttIsOfPacket(p: Params, mds: nat, run: seq<Action>, n: nat)
    returns (i: nat, m: nat, j: nat)
    requires ParamsOk(p) && ValidRun(run) && n <= |run| && Before(p, mds, run, n).sender.minRtt != 0
    ensures i < n && PacketRtt(p, mds, run, i, m, j, Before(p, mds, run, n).sender.minRtt)
    ensures forall k: nat, l: nat, o: nat, r: int :: i <= k < n && PacketRtt(p, mds, run, k, l, o, r) ==>
              r >= Before(p, mds, run, n).sender.minRtt
  {
    hide Before, ValidRun, PacketRtt, RttAt;
    var rtt := Before(p, mds, run, n).sender.minRtt;
    i := MinRttIsLeastSince(p, mds, run, n);
    NoEventNoRtt(p, mds, run, i);
    EventRtt(p, mds, run, i);
    m, j :| PacketRtt(p, mds, run, i, m, j, rtt);
    forall k: nat, l: nat, o: nat, r: int | i <= k < n && PacketRtt(p, mds, run, k, l, o, r) ensures r >= rtt {
      RttsAreOfEvents(p, mds, run, k, l, o, r);
      EventRtt(p, mds, run, k);
    }
  }

  lemma {:induction false} RttsAreOfEvents(p: Params, mds: nat, run: seq<Action>, i: nat, m: nat, j: nat, rtt: int)
    requires ParamsOk(p) && ValidRun(run) && PacketRtt(p, mds, run, i, m, j, rtt)
    ensures i < |run| && run[i].Congestion?
  {
  }
}
