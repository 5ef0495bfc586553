/**
 The send state that the BBR sender adapts to, over whole runs: which packet it belongs to, that
 it is the state of the connection when that packet was sent, and what follows for the app-limited
 flag and the loss test of STARTUP (congestion_meta2/bbr_sender.go:409-412, 431-436, 912-926).
 */
module BbrReports {
  import opened Wrappers
  import opened PacketQueues
  import opened BandwidthSamplers
  import opened SamplerReports
  import opened BbrModel
  import opened BbrFrames
  import opened BbrInvariants
  import opened BbrTraces
  import opened BbrEstimates
  import opened BbrStartup

  // ---------- Records are made at sends ----------

  /** The record that the sampler makes of a tracked send. */
  function RecordOf(s: State, send: Action): Snapshot
    requires send.Send?
  {
    SnapshotOf(CountSent(s, send.sentTime, send.bytes, send.bytesInFlight), send.sentTime, send.bytes,
               send.bytesInFlight + send.bytes)
  }

  /** Action j sent this packet, and this is the record made of it then. */
  ghost predicate RecordedAt(p: Params, mds: nat, run: seq<Action>, j: nat, q: int, record: Snapshot)
    requires ParamsOk(p) && ValidRun(run)
  {
    && SentAt(run, j, q) && run[j].isRetransmittable
    && record == RecordOf(Before(p, mds, run, j).sampler, run[j])
  }

  lemma {:induction false} SendRecords(s: State, send: Action)
    requires WellFormed(s) && send.Send? && send.packetNumber > s.lastSentPacket
    ensures var t := Sent(s, send.sentTime, send.packetNumber, send.bytes, send.bytesInFlight, send.isRetransmittable);
            t.tracked.live == if send.isRetransmittable
                              then s.tracked.live[send.packetNumber := RecordOf(s, send)] else s.tracked.live
  {
  }

  /** Where the slopes of the next samples begin: the last acknowledged packet, or the opening of the pipe. */
  datatype Anchor = Anchor(sentTime: nat, ackTime: nat, totalBytesSent: nat)

  function AnchorOf(s: State): Anchor {
    Anchor(s.lastAckedPacketSentTime, s.lastAckedPacketAckTime, s.totalBytesSentAtLastAckedPacket)
  }

  /** The anchor once this record's packet is acknowledged. */
  function AckedAnchor(record: Snapshot, ackTime: nat): Anchor {
    Anchor(record.sentTime, ackTime, record.sendTimeState.totalBytesSent)
  }

  /** Acks keep the records and the sent total, add to the acked total, and may move the anchor to a tracked packet. */
  ghost predicate AcksOnly(s: State, t: State, ackTime: nat, r: Option<int>) {
    && t.tracked == s.tracked && t.totalBytesSent == s.totalBytesSent && t.totalBytesAcked >= s.totalBytesAcked
    && if r.None? then AnchorOf(t) == AnchorOf(s) && t.totalBytesAcked == s.totalBytesAcked
       else r.value in s.tracked.live && AnchorOf(t) == AckedAnchor(s.tracked.live[r.value], ackTime)
  }

  lemma {:induction false} AckOnly(s: State, ackTime: nat, packetNumber: nat) returns (r: Option<int>)
    requires WellFormed(s)
    ensures AcksOnly(s, Acked(s, ackTime, packetNumber).0, ackTime, r)
  {
    r := if packetNumber in s.tracked.live then Some(packetNumber) else None;
  }

  lemma {:induction false} AllAcksOnly(s: State, ackTime: nat, acked: seq<AckedPacket>) returns (r: Option<int>)
    requires WellFormed(s)
    ensures AcksOnly(s, AckAll(s, ackTime, acked).0, ackTime, r)
  {
    hide WellFormed, Acked;
    r := None;
    if acked != [] {
      r := AllAcksOnly(s, ackTime, acked[..|acked| - 1]);
      var last := AckOnly(AckAll(s, ackTime, acked[..|acked| - 1]).0, ackTime, acked[|acked| - 1].packetNumber);
      r := if last.Some? then last else r;
    }
  }

  lemma {:induction false} SampledOnly(p: Params, k: Stack, e: Event) returns (r: Option<int>)
    requires WellFormed(k.sampler)
    ensures AcksOnly(k.sampler, SampledEvent(p, k, e).0, e.eventTime, r)
  {
    hide WellFormed, IsAppLimited;
    OthersKeepWellFormed(k.sampler, 0, 0, 0);
    var s := if IsAppLimited(p, k.sender, e.priorInFlight) then LimitedByApp(k.sampler) else k.sampler;
    LoseAllKeepsWellFormed(s, e.lost);
    r := AllAcksOnly(LoseAll(s, e.lost).0, e.eventTime, e.acked);
  }

  /** An event does to the sampler what its acks do, and then drops obsolete records. */
  lemma {:induction false} EventOnly(p: Params, k: Stack, e: Event) returns (sampled: State, r: Option<int>)
    requires WellFormed(k.sampler) && NonEmpty(e)
    ensures AcksOnly(k.sampler, sampled, e.eventTime, r)
    ensures var t := OnCongestionEvent(p, k, e).sampler;
            && t.tracked == RemoveUpToView(sampled.tracked, LeastUnacked(e)) && AnchorOf(t) == AnchorOf(sampled)
            && t.totalBytesSent == sampled.totalBytesSent && t.totalBytesAcked == sampled.totalBytesAcked
    ensures sampled == SampledEvent(p, k, e).0
  {
    hide WellFormed, AcksOnly, SampledEvent, OnCongestionEvent, EnterProbeRtt, LeastUnacked, RemoveUpToView;
    var d := EventIsItsSteps(p, k, e);
    sampled := SampledEvent(p, k, e).0;
    r := SampledOnly(p, k, e);
  }

  /**
   An event makes no records and changes none. It drops exactly those more than two below the last
   packet acknowledged, or without acks those up to the last packet lost.
   */
  lemma {:induction false} EventDropsRecords(p: Params, k: Stack, e: Event, q: int)
    requires WellFormed(k.sampler) && NonEmpty(e)
    ensures var live, live' := k.sampler.tracked.live, OnCongestionEvent(p, k, e).sampler.tracked.live;
            && (q in live' <==>
                 q in live && if e.acked != [] then q >= LastAcked(e) - 2 else q > e.lost[|e.lost| - 1].packetNumber)
            && (q in live' ==> live'[q] == live[q])
  {
    hide WellFormed, OnCongestionEvent;
    var sampled, r := EventOnly(p, k, e);
  }

  /** Every tracked packet was sent, and its record is the one made then. */
  lemma {:induction false} TrackedWasSent(p: Params, mds: nat, run: seq<Action>, n: nat, q: int) returns (j: nat)
    requires ParamsOk(p) && ValidRun(run) && n <= |run| && q in Before(p, mds, run, n).sampler.tracked.live
    ensures j < n && RecordedAt(p, mds, run, j, q, Before(p, mds, run, n).sampler.tracked.live[q])
    decreases n
  {
    hide Before, OnCongestionEvent, WellFormed, RecordOf, Sent, ValidRun;
    if n == 0 {
      NothingTracked(p, mds, run);
    } else {
      BeforeStep(p, mds, run, n - 1);
      var k := Before(p, mds, run, n - 1);
      if run[n - 1].Send? {
        NextNumber(p, mds, run, n - 1);
        SendRecords(k.sampler, run[n - 1]);
        if run[n - 1].isRetransmittable && run[n - 1].packetNumber == q {
          j := n - 1;
          return;
        }
      } else if run[n - 1].Congestion? {
        NoEmptyEvent(run, n - 1);
        EventDropsRecords(p, k, run[n - 1].event, q);
      }
      j := TrackedWasSent(p, mds, run, n - 1, q);
    }
  }

  lemma {:induction false} NothingTracked(p: Params, mds: nat, run: seq<Action>)
    requires ParamsOk(p) && ValidRun(run)
    ensures Before(p, mds, run, 0).sampler == INITIAL
  {
    assert run[..0] == [];
  }

  lemma {:induction false} NoEmptyEvent(run: seq<Action>, i: nat)
    requires ValidRun(run) && i < |run| && run[i].Congestion?
    ensures NonEmpty(run[i].event)
  {
  }

  lemma {:induction false} NextNumber(p: Params, mds: nat, run: seq<Action>, i: nat)
    requires ParamsOk(p) && ValidRun(run) && i < |run| && run[i].Send?
    ensures run[i].packetNumber > Before(p, mds, run, i).sampler.lastSentPacket
  {
    hide WellFormed;
    ValidPrefix(run, i + 1);
    NumbersGrow(run[..i + 1]);
    assert run[..i + 1][..i] == run[..i];
  }

  // ---------- The reported packet ----------

  /** The packet whose send state action i adapts to. */
  function ReportedAt(p: Params, mds: nat, run: seq<Action>, i: nat): Option<nat>
    requires ParamsOk(p) && ValidRun(run) && i < |run| && run[i].Congestion?
  {
    Reported(Before(p, mds, run, i).sampler.tracked.live, run[i].event.eventTime, run[i].event.acked, run[i].event.lost)
  }

  /** The send state that it adapts to. */
  function LastStateAt(p: Params, mds: nat, run: seq<Action>, i: nat): SendTimeState
    requires ParamsOk(p) && ValidRun(run) && i < |run| && run[i].Congestion?
  {
    SampleAt(p, Before(p, mds, run, i), run[i].event).lastPacketSendState
  }

  lemma {:induction false} SampledReport(p: Params, k: Stack, e: Event)
    requires WellFormed(k.sampler)
    ensures var q := Reported(k.sampler.tracked.live, e.eventTime, e.acked, e.lost);
            var last := SampleAt(p, k, e).lastPacketSendState;
            last == StateAtSend(k.sampler.tracked.live, q) && (last.isValid <==> q.Some?)
  {
    hide WellFormed, IsAppLimited, CongestionEvent, Reported, StateAtSend;
    OthersKeepWellFormed(k.sampler, 0, 0, 0);
    EventReports(if IsAppLimited(p, k.sender, e.priorInFlight) then LimitedByApp(k.sampler) else k.sampler,
                 e.eventTime, e.acked, e.lost);
  }

  /** The state of the connection just after action j sent a packet. */
  function StateAfterSend(p: Params, mds: nat, run: seq<Action>, j: nat): SendTimeState
    requires ParamsOk(p) && ValidRun(run) && j < |run| && run[j].Send?
  {
    var s := Before(p, mds, run, j).sampler;
    SendTimeState(true, s.isAppLimited, s.totalBytesSent + run[j].bytes, s.totalBytesAcked, s.totalBytesLost,
                  run[j].bytesInFlight + run[j].bytes)
  }

  /**
   An event adapts to the state of the connection at the moment the reported packet was sent,
   that packet counted in; without a reported packet it adapts to none.
   */
  lemma {:induction false} ReportIsOfItsSend(p: Params, mds: nat, run: seq<Action>, i: nat) returns (j: nat)
    requires ParamsOk(p) && ValidRun(run) && i < |run| && run[i].Congestion?
    ensures LastStateAt(p, mds, run, i).isValid <==> ReportedAt(p, mds, run, i).Some?
    ensures ReportedAt(p, mds, run, i).Some? ==>
              && j < i && SentAt(run, j, ReportedAt(p, mds, run, i).value)
              && LastStateAt(p, mds, run, i) == StateAfterSend(p, mds, run, j)
  {
    hide Before, Reported, SampleAt, WellFormed, ValidRun;
    SampledReport(p, Before(p, mds, run, i), run[i].event);
    var q := ReportedAt(p, mds, run, i);
    j := 0;
    if q.Some? {
      j := TrackedWasSent(p, mds, run, i, q.value);
    }
  }

  /** The loss test of STARTUP is about the flight that the reported packet was sent into, that packet included. */
  lemma {:induction false} HeavyLossIsOfReported(p: Params, mds: nat, run: seq<Action>, i: nat) returns (j: nat)
    requires ParamsOk(p) && ValidRun(run) && i < |run| && run[i].Congestion?
    ensures ReportedAt(p, mds, run, i).None? ==> !HeavyLossAt(p, mds, run, i)
    ensures ReportedAt(p, mds, run, i).Some? ==>
              && j < i && SentAt(run, j, ReportedAt(p, mds, run, i).value)
              && (HeavyLossAt(p, mds, run, i) <==>
                   && LossEventsInRound(p, mds, run, i) + (if run[i].event.lost != [] then 1 else 0) >= 8
                   && 50 * (BytesLostInRound(p, mds, run, i) + SumLost(run[i].event.lost))
                      > run[j].bytesInFlight + run[j].bytes > 0)
  {
    hide Before, SampleAt, ValidRun, ReportedAt, LossEventsInRound, BytesLostInRound, SumLost;
    j := ReportIsOfItsSend(p, mds, run, i);
  }

  /**
   After an event, the sender's app-limited flag says whether the reported packet was sent in an
   app-limited phase, and one that was not is remembered; an event that reports none changes neither.
   */
  lemma {:induction false} FlagIsOfReported(p: Params, mds: nat, run: seq<Action>, i: nat) returns (j: nat)
    requires ParamsOk(p) && ValidRun(run) && i < |run| && run[i].Congestion?
    ensures var s, t := Before(p, mds, run, i).sender, Before(p, mds, run, i + 1).sender;
            if ReportedAt(p, mds, run, i).None? then
              && t.lastSampleIsAppLimited == s.lastSampleIsAppLimited
              && t.hasNoAppLimitedSample == s.hasNoAppLimitedSample
            else
              && j < i && SentAt(run, j, ReportedAt(p, mds, run, i).value)
              && t.lastSampleIsAppLimited == Before(p, mds, run, j).sampler.isAppLimited
              && t.hasNoAppLimitedSample == (s.hasNoAppLimitedSample || !t.lastSampleIsAppLimited)
  {
    hide Before, SampleAt, ValidRun, ReportedAt, OnCongestionEvent, WellFormed, Judges, Judged, HeavyLossBy;
    j := ReportIsOfItsSend(p, mds, run, i);
    NoEmptyEvent(run, i);
    BeforeStep(p, mds, run, i);
    EventJudges(p, Before(p, mds, run, i), run[i].event);
  }

  // ---------- The documented packet ----------

  lemma {:induction false} TotalsStep(p: Params, mds: nat, run: seq<Action>, i: nat)
    requires ParamsOk(p) && ValidRun(run) && i < |run|
    ensures Before(p, mds, run, i + 1).sampler.totalBytesSent
         == Before(p, mds, run, i).sampler.totalBytesSent
          + if run[i].Send? && run[i].isRetransmittable then run[i].bytes else 0
    ensures Before(p, mds, run, i + 1).sampler.totalBytesAcked >= Before(p, mds, run, i).sampler.totalBytesAcked
    ensures !run[i].Congestion? ==>
        Before(p, mds, run, i + 1).sampler.totalBytesAcked == Before(p, mds, run, i).sampler.totalBytesAcked
  {
    hide WellFormed, OnCongestionEvent, Before, ValidRun;
    BeforeStep(p, mds, run, i);
    if run[i].Congestion? {
      NoEmptyEvent(run, i);
      var sampled, r := EventOnly(p, Before(p, mds, run, i), run[i].event);
    }
  }

  /** The sent and acked totals never go back. */
  lemma {:induction false} TotalsGrow(p: Params, mds: nat, run: seq<Action>, i: nat, j: nat)
    requires ParamsOk(p) && ValidRun(run) && i <= j <= |run|
    ensures Before(p, mds, run, i).sampler.totalBytesSent <= Before(p, mds, run, j).sampler.totalBytesSent
    ensures Before(p, mds, run, i).sampler.totalBytesAcked <= Before(p, mds, run, j).sampler.totalBytesAcked
    decreases j - i
  {
    hide Before, ValidRun;
    if i < j {
      TotalsGrow(p, mds, run, i, j - 1);
      TotalsStep(p, mds, run, j - 1);
    }
  }

  /** No tracked packet is empty. */
  ghost predicate SendsBytes(run: seq<Action>) {
    forall j :: 0 <= j < |run| && run[j].Send? && run[j].isRetransmittable ==> run[j].bytes > 0
  }

  /** When every tracked send has bytes, the sent totals tell the records apart. */
  lemma {:induction false} RecordsAreDistinct(p: Params, mds: nat, run: seq<Action>, n: nat)
    requires ParamsOk(p) && ValidRun(run) && SendsBytes(run) && n <= |run|
    ensures Distinct(Before(p, mds, run, n).sampler.tracked.live)
  {
    hide Before, ValidRun;
    var live := Before(p, mds, run, n).sampler.tracked.live;
    forall q, r | q in live && r in live && q != r ensures live[q].sendTimeState != live[r].sendTimeState {
      var i := TrackedWasSent(p, mds, run, n, q);
      var j := TrackedWasSent(p, mds, run, n, r);
      if i < j {
        LaterRecordDiffers(p, mds, run, i, j);
      } else {
        LaterRecordDiffers(p, mds, run, j, i);
      }
    }
  }

  lemma {:induction false} LaterRecordDiffers(p: Params, mds: nat, run: seq<Action>, i: nat, j: nat)
    requires ParamsOk(p) && ValidRun(run) && SendsBytes(run) && i < j < |run| && run[i].Send? && run[j].Send?
    requires run[i].isRetransmittable && run[j].isRetransmittable
    ensures RecordOf(Before(p, mds, run, i).sampler, run[i]).sendTimeState.totalBytesSent
          < RecordOf(Before(p, mds, run, j).sampler, run[j]).sendTimeState.totalBytesSent
  {
    hide Before, ValidRun;
    TotalsStep(p, mds, run, i);
    TotalsGrow(p, mds, run, i + 1, j);
  }

  /**
   Exactly when an event adapts to the send state of the packet that the handler's comment names:
   in a run that sends no empty packets, at an event that does not also lose its largest
   acknowledged packet.
   */
  lemma {:induction false} DocumentedIsReportedAtIff(p: Params, mds: nat, run: seq<Action>, i: nat)
    requires ParamsOk(p) && ValidRun(run) && SendsBytes(run) && i < |run| && run[i].Congestion?
    requires var e := run[i].event;
             e.acked != [] ==> forall l :: 0 <= l < |e.lost| ==> e.lost[l].packetNumber != LastAcked(e)
    ensures NonEmpty(run[i].event)
    ensures var e, live := run[i].event, Before(p, mds, run, i).sampler.tracked.live;
            (LastStateAt(p, mds, run, i) == StateAtSend(live, Some(Documented(e.acked, e.lost)))
             <==> AsDocumented(live, e.eventTime, e.acked, e.lost))
  {
    hide Before, WellFormed, CongestionEvent, AsDocumented;
    var k, e := Before(p, mds, run, i), run[i].event;
    NoEmptyEvent(run, i);
    RecordsAreDistinct(p, mds, run, i);
    OthersKeepWellFormed(k.sampler, 0, 0, 0);
    DocumentedIsReportedIff(if IsAppLimited(p, k.sender, e.priorInFlight) then LimitedByApp(k.sampler) else k.sampler,
                            e.eventTime, e.acked, e.lost);
  }

  // ---------- Reports that the comment does not promise ----------

  const SIZE := 10

  /** Packets 1 and 3 carry data, and packet 5 only acks. */
  const THREE_SENDS := [Send(SECOND, 0, 1, SIZE, true), Send(2 * SECOND, SIZE, 3, SIZE, true),
                        Send(3 * SECOND, 2 * SIZE, 5, SIZE, false)]

  /** Packet 1 is acknowledged, perhaps with packet 5, and packet 3 is lost. */
  function Overtaken(withAckOnly: bool): Event {
    Event(2 * SIZE, 4 * SECOND,
          if withAckOnly then [AckedPacket(1, SIZE), AckedPacket(5, SIZE)] else [AckedPacket(1, SIZE)],
          [LostPacket(3, SIZE)], 0, 0, 0)
  }

  /** The records of packets 1 and 3 after those sends. */
  ghost predicate HoldsBoth(live: Records) {
    && live.Keys == {1, 3} && live[1].sendTimeState.bytesInFlight == SIZE
    && live[3].sendTimeState.bytesInFlight == 2 * SIZE
    && live[1].lastAckedPacketSentTime == SECOND && live[1].lastAckedPacketAckTime == SECOND
  }

  lemma {:induction false} BothRecorded()
    ensures var first := Sent(INITIAL, SECOND, 1, SIZE, 0, true);
            var second := Sent(first, 2 * SECOND, 3, SIZE, SIZE, true);
            HoldsBoth(Sent(second, 3 * SECOND, 5, SIZE, 2 * SIZE, false).tracked.live)
  {
  }

  lemma {:induction false} AfterSend(p: Params, mds: nat, run: seq<Action>, a: Action)
    requires ParamsOk(p) && ValidRun(run) && a.Send? && a.packetNumber > LastSent(run)
    ensures ValidRun(run + [a]) && LastSent(run + [a]) == a.packetNumber
    ensures Run(p, mds, run + [a]).sampler
         == Sent(Run(p, mds, run).sampler, a.sentTime, a.packetNumber, a.bytes, a.bytesInFlight, a.isRetransmittable)
  {
    hide Run, ValidRun, LastSent, Invariant, Sent;
    Extend(p, mds, run, a);
  }

  lemma {:induction false} AfterThreeSends(p: Params, mds: nat)
    requires ParamsOk(p)
    ensures ValidRun(THREE_SENDS) && HoldsBoth(Run(p, mds, THREE_SENDS).sampler.tracked.live)
  {
    hide Run, ValidRun, LastSent, Invariant, Sent, HoldsBoth;
    var none: seq<Action>, one, two := [], [] + [THREE_SENDS[0]], [] + [THREE_SENDS[0]] + [THREE_SENDS[1]];
    StartsEmpty(p, mds);
    AfterSend(p, mds, none, THREE_SENDS[0]);
    AfterSend(p, mds, one, THREE_SENDS[1]);
    AfterSend(p, mds, two, THREE_SENDS[2]);
    BothRecorded();
    assert two + [THREE_SENDS[2]] == THREE_SENDS;
  }

  lemma {:induction false} StartsEmpty(p: Params, mds: nat)
    requires ParamsOk(p)
    ensures ValidRun([]) && LastSent([]) == INVALID_PACKET_NUMBER && Run(p, mds, []).sampler == INITIAL
  {
  }

  /**
   The comment is wrong twice over: an event that acknowledges packet 1 and loses packet 3 adapts
   to packet 3; with an ack of the untracked packet 5 beside it, it adapts to packet 1, although
   packet 3 is larger and tracked.
   */
  lemma {:induction false} OvertakenAckIsNotReported(p: Params, mds: nat, withAckOnly: bool)
    requires ParamsOk(p)
    ensures var run := THREE_SENDS + [Congestion(Overtaken(withAckOnly))];
            && ValidRun(run) && ReportedAt(p, mds, run, 3) == Some(if withAckOnly then 1 else 3)
            && LastStateAt(p, mds, run, 3).bytesInFlight == (if withAckOnly then 1 else 2) * SIZE
            && !AsDocumented(Before(p, mds, run, 3).sampler.tracked.live, 4 * SECOND,
                             Overtaken(withAckOnly).acked, Overtaken(withAckOnly).lost)
  {
    hide Run, ValidRun, SampleAt, Reported, AsDocumented, WellFormed;
    var e := Overtaken(withAckOnly);
    var run := THREE_SENDS + [Congestion(e)];
    AfterThreeSends(p, mds);
    assert SentAt(THREE_SENDS, if withAckOnly then 2 else 0, LastAcked(e));
    Extend(p, mds, THREE_SENDS, Congestion(e));
    assert run[..3] == THREE_SENDS;
    SampledReport(p, Before(p, mds, run, 3), e);
    OvertakenReport(Before(p, mds, run, 3).sampler.tracked.live, withAckOnly);
  }

  lemma {:induction false} OvertakenReport(live: Records, withAckOnly: bool)
    requires HoldsBoth(live)
    ensures var e := Overtaken(withAckOnly);
            && Reported(live, 4 * SECOND, e.acked, e.lost) == Some(if withAckOnly then 1 else 3)
            && !AsDocumented(live, 4 * SECOND, e.acked, e.lost)
  {
    var e := Overtaken(withAckOnly);
    assert 3 in live && 1 in live && 5 !in live;
    assert e.lost[0].packetNumber in live;
    assert Samples(live, 4 * SECOND, 1);
    assert LastTracked(live, e.lost) == Some(0);
    assert e.acked[0].packetNumber == 1;
    if withAckOnly {
      assert e.acked[..1][0].packetNumber == 1;
    }
    assert LastSampled(live, 4 * SECOND, e.acked) == Some(0);
  }
}
