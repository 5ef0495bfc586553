/**
 The BBR sender over whole runs of sends, congestion events and datagram-size changes: the
 joint invariant, one flight per round, and recovery that outlasts its losses.
 */
module BbrTraces {
  import opened BandwidthSamplers
  import opened PacketQueues
  import opened BbrModel
  import opened BbrInvariants

  datatype Action =
    | Send(sentTime: nat, bytesInFlight: nat, packetNumber: nat, bytes: nat, isRetransmittable: bool)
    | Congestion(event: Event)
    | Resize(maxDatagramSize: nat)

  /**
   The environment: packets are sent with strictly increasing numbers, a congestion event is
   not empty, and only packets already sent are acknowledged.
   */
  ghost predicate ValidRun(run: seq<Action>) {
    && (forall i, j :: 0 <= i < j < |run| && run[i].Send? && run[j].Send? ==> run[i].packetNumber < run[j].packetNumber)
    && (forall i :: 0 <= i < |run| && run[i].Congestion? ==> NonEmpty(run[i].event))
    && (forall i :: 0 <= i < |run| && run[i].Congestion? && run[i].event.acked != [] ==>
          exists j :: SentAt(run, j, LastAcked(run[i].event)) && j < i)
  }

  ghost predicate SentAt(run: seq<Action>, j: int, packetNumber: int) {
    0 <= j < |run| && run[j].Send? && run[j].packetNumber == packetNumber
  }

  function LastAcked(e: Event): nat
    requires e.acked != []
  {
    e.acked[|e.acked| - 1].packetNumber
  }

  function LastSent(run: seq<Action>): int {
    if run == [] then INVALID_PACKET_NUMBER
    else if run[|run| - 1].Send? then run[|run| - 1].packetNumber
    else LastSent(run[..|run| - 1])
  }

  function Apply(p: Params, k: Stack, a: Action): Stack
    requires WellFormed(k.sampler) && (a.Congestion? ==> NonEmpty(a.event))
  {
    match a
    case Send(time, inFlight, number, bytes, retransmittable) =>
      OnPacketSent(k, time, inFlight, number, bytes, retransmittable)
    case Congestion(e) => OnCongestionEvent(p, k, e)
    case Resize(size) => k.(sender := k.sender.(maxDatagramSize := size))
  }

  lemma {:induction false} ValidPrefix(run: seq<Action>, n: nat)
    requires ValidRun(run) && n <= |run|
    ensures ValidRun(run[..n])
  {
    var t := run[..n];
    forall i | 0 <= i < |t| && t[i].Congestion? && t[i].event.acked != []
      ensures exists j :: SentAt(t, j, LastAcked(t[i].event)) && j < i
    {
      var j :| SentAt(run, j, LastAcked(run[i].event)) && j < i;
      assert SentAt(t, j, LastAcked(t[i].event));
    }
  }

  lemma {:induction false} LastSentIsHighest(run: seq<Action>)
    requires ValidRun(run)
    ensures LastSent(run) >= INVALID_PACKET_NUMBER
    ensures forall i :: 0 <= i < |run| && run[i].Send? ==> run[i].packetNumber <= LastSent(run)
    ensures LastSent(run) != INVALID_PACKET_NUMBER ==> exists i :: SentAt(run, i, LastSent(run))
  {
    if run != [] {
      var init := run[..|run| - 1];
      ValidPrefix(run, |run| - 1);
      LastSentIsHighest(init);
      if run[|run| - 1].Send? {
        assert SentAt(run, |run| - 1, LastSent(run));
      } else if LastSent(run) != INVALID_PACKET_NUMBER {
        var i :| SentAt(init, i, LastSent(init));
        assert SentAt(run, i, LastSent(run));
      }
    }
  }

  lemma {:induction false} SentBelowLast(run: seq<Action>, i: nat, n: nat)
    requires ValidRun(run) && i < n <= |run| && run[i].Send?
    ensures run[i].packetNumber <= LastSent(run[..n])
  {
    ValidPrefix(run, n);
    LastSentIsHighest(run[..n]);
    assert run[..n][i].Send?;
  }

  lemma {:induction false} NumbersGrow(run: seq<Action>)
    requires ValidRun(run) && run != []
    ensures run[|run| - 1].Send? ==> run[|run| - 1].packetNumber > LastSent(run[..|run| - 1])
  {
    var init := run[..|run| - 1];
    ValidPrefix(run, |run| - 1);
    LastSentIsHighest(init);
    if LastSent(init) != INVALID_PACKET_NUMBER {
      var i :| SentAt(init, i, LastSent(init));
      assert run[i].Send?;
    }
  }

  lemma {:induction false} InitialInvariant(p: Params, maxDatagramSize: nat)
    requires ParamsOk(p)
    ensures Invariant(p, InitialStack(p, maxDatagramSize))
  {
  }

  lemma {:induction false} ApplyKeepsInvariant(p: Params, k: Stack, a: Action)
    requires ParamsOk(p) && Invariant(p, k)
    requires (a.Congestion? ==> NonEmpty(a.event)) && (a.Send? ==> a.packetNumber > k.sender.lastSentPacket)
    ensures Invariant(p, Apply(p, k, a))
    ensures Apply(p, k, a).sender.lastSentPacket == if a.Send? then a.packetNumber else k.sender.lastSentPacket
    ensures k.sender.isAtFullBandwidth ==> Apply(p, k, a).sender.isAtFullBandwidth
  {
    hide OnCongestionEvent, WellFormed;
    match a
    case Send(time, inFlight, number, bytes, retransmittable) =>
      SendKeepsInvariant(p, k, time, inFlight, number, bytes, retransmittable);
    case Congestion(e) => EventKeepsInvariant(p, k, e);
    case Resize(size) =>
  }

  /** The state after a run: the joint invariant holds in every reachable one. */
  function Run(p: Params, maxDatagramSize: nat, run: seq<Action>): (k: Stack)
    requires ParamsOk(p) && ValidRun(run)
    ensures Invariant(p, k) && k.sender.lastSentPacket == LastSent(run)
    decreases |run|
  {
    if run == [] then
      InitialInvariant(p, maxDatagramSize);
      InitialStack(p, maxDatagramSize)
    else
      ValidPrefix(run, |run| - 1);
      NumbersGrow(run);
      var k := Run(p, maxDatagramSize, run[..|run| - 1]);
      ApplyKeepsInvariant(p, k, run[|run| - 1]);
      Apply(p, k, run[|run| - 1])
  }

  /** The state just before action i of a run, and after all of it when i is its length. */
  function Before(p: Params, mds: nat, run: seq<Action>, i: nat): (k: Stack)
    requires ParamsOk(p) && ValidRun(run) && i <= |run|
    ensures Invariant(p, k) && k.sender.lastSentPacket == LastSent(run[..i])
  {
    ValidPrefix(run, i);
    Run(p, mds, run[..i])
  }

  lemma {:induction false} BeforeStep(p: Params, mds: nat, run: seq<Action>, i: nat)
    requires ParamsOk(p) && ValidRun(run) && i < |run|
    ensures Before(p, mds, run, i + 1) == Apply(p, Before(p, mds, run, i), run[i])
  {
    hide Apply, Invariant;
    ValidPrefix(run, i + 1);
    assert run[..i + 1][..i] == run[..i];
  }

  /** In every mode and recovery state of every run, the window the send check uses is in bounds. */
  lemma {:induction false} WindowAlwaysInBounds(p: Params, mds: nat, run: seq<Action>)
    requires ParamsOk(p) && ValidRun(run)
    ensures p.minWindow <= CongestionWindow(p, Run(p, mds, run).sender) <= p.maxWindow
  {
    SendWindowInBounds(p, Run(p, mds, run));
  }

  /** Full bandwidth, once reached, is never undone. */
  lemma {:induction false} FullBandwidthIsKept(p: Params, mds: nat, run: seq<Action>, i: nat, j: nat)
    requires ParamsOk(p) && ValidRun(run) && i <= j <= |run|
    requires Before(p, mds, run, i).sender.isAtFullBandwidth
    ensures Before(p, mds, run, j).sender.isAtFullBandwidth
    decreases j - i
  {
    hide Apply, Before;
    if i < j {
      FullBandwidthIsKept(p, mds, run, i, j - 1);
      StepMarkers(p, mds, run, j - 1);
    }
  }

  // ---------- Rounds and recoveries ----------

  /** Action i advances the round counter. */
  ghost predicate RoundStartsAt(p: Params, mds: nat, run: seq<Action>, i: nat)
    requires ParamsOk(p) && ValidRun(run)
  {
    i < |run| && run[i].Congestion? && StartsRound(Before(p, mds, run, i).sender, run[i].event.acked)
  }

  ghost predicate InRecoveryBefore(p: Params, mds: nat, run: seq<Action>, i: nat)
    requires ParamsOk(p) && ValidRun(run) && i <= |run|
  {
    Before(p, mds, run, i).sender.recoveryState != NotInRecovery
  }

  /** Action i starts a recovery. */
  ghost predicate RecoveryStartsAt(p: Params, mds: nat, run: seq<Action>, i: nat)
    requires ParamsOk(p) && ValidRun(run)
  {
    i < |run| && !InRecoveryBefore(p, mds, run, i) && InRecoveryBefore(p, mds, run, i + 1)
  }

  /** Action i ends a recovery. */
  ghost predicate RecoveryEndsAt(p: Params, mds: nat, run: seq<Action>, i: nat)
    requires ParamsOk(p) && ValidRun(run)
  {
    i < |run| && InRecoveryBefore(p, mds, run, i) && !InRecoveryBefore(p, mds, run, i + 1)
  }

  /** Action i carries both acknowledgements and losses. */
  ghost predicate MixedAt(run: seq<Action>, i: nat) {
    i < |run| && run[i].Congestion? && run[i].event.acked != [] && run[i].event.lost != []
  }

  lemma {:induction false} RoundMarkers(s: Sender, lastAcked: int)
    requires MarkersSent(s)
    ensures var t := CountRound(s, lastAcked);
            && MarkersSent(t)
            && s.currentRoundTripEnd <= t.currentRoundTripEnd
            && t.currentRoundTripEnd == (if IsRoundStart(s, lastAcked) then s.lastSentPacket else s.currentRoundTripEnd)
            && t == s.(roundTripCount := t.roundTripCount, currentRoundTripEnd := t.currentRoundTripEnd)
  {
  }

  ghost predicate StartsRecovery(s: Sender, t: Sender) {
    s.recoveryState == NotInRecovery && t.recoveryState != NotInRecovery
  }

  /** The exit test of a recovery: acks beyond its marker, and no losses. */
  predicate EndsRecovery(s: Sender, e: Event) {
    s.recoveryState != NotInRecovery && e.acked != [] && e.lost == [] && LastAcked(e) > s.endRecoveryAt
  }

  /** A recovery starts in conservation, and grows exactly from the next new round on. */
  ghost predicate RecoveryGoesOn(before: Recovery, after: Recovery, isRoundStart: bool) {
    after == NotInRecovery
    || after == if before == NotInRecovery || (before == Conservation && !isRoundStart) then Conservation else Growth
  }

  lemma {:induction false} RecoveryMarkers(s: Sender, lastAcked: int, hasLosses: bool, isRoundStart: bool)
    requires MarkersSent(s) && (s.recoveryState != NotInRecovery ==> s.isAtFullBandwidth)
    ensures var t := UpdateRecovery(s, lastAcked, hasLosses, isRoundStart);
            && s.currentRoundTripEnd <= t.currentRoundTripEnd <= s.lastSentPacket && s.endRecoveryAt <= t.endRecoveryAt
            && (StartsRecovery(s, t) <==> s.isAtFullBandwidth && s.recoveryState == NotInRecovery && hasLosses)
            && (StartsRecovery(t, s) <==> s.recoveryState != NotInRecovery && !hasLosses && lastAcked > s.endRecoveryAt)
            && (StartsRecovery(s, t) ==> t.currentRoundTripEnd == s.lastSentPacket)
            && (!StartsRecovery(s, t) ==> t.currentRoundTripEnd == s.currentRoundTripEnd)
            && t.endRecoveryAt == (if s.isAtFullBandwidth && hasLosses then s.lastSentPacket else s.endRecoveryAt)
            && RecoveryGoesOn(s.recoveryState, t.recoveryState, isRoundStart)
  {
  }

  /**
   One event's effect on the markers: they never move back; they jump to the last packet sent
   at a new round, a new recovery, and a loss in recovery. Recovery starts exactly with acks and
   losses at full bandwidth, and ends exactly with acks beyond its marker and no losses.
   */
  lemma {:induction false} AccountMarkers(s: Sender, e: Event)
    requires MarkersSent(s) && (s.recoveryState != NotInRecovery ==> s.isAtFullBandwidth)
    ensures var t := Account(s, e);
            && s.currentRoundTripEnd <= t.currentRoundTripEnd && s.endRecoveryAt <= t.endRecoveryAt
            && (StartsRound(s, e.acked) || StartsRecovery(s, t) ==>
                 e.acked != [] && t.currentRoundTripEnd == s.lastSentPacket)
            && (StartsRecovery(s, t) <==>
                 s.isAtFullBandwidth && s.recoveryState == NotInRecovery && e.acked != [] && e.lost != [])
            && (StartsRecovery(t, s) <==> EndsRecovery(s, e))
            && (!StartsRound(s, e.acked) && !StartsRecovery(s, t) ==> t.currentRoundTripEnd == s.currentRoundTripEnd)
            && t.endRecoveryAt == (if s.isAtFullBandwidth && e.acked != [] && e.lost != []
                                   then s.lastSentPacket else s.endRecoveryAt)
            && RecoveryGoesOn(s.recoveryState, t.recoveryState, StartsRound(s, e.acked))
  {
    hide CountRound, UpdateRecovery, IsRoundStart;
    var counted := s.(bytesInFlight := e.priorInFlight - SumAcked(e.acked) - SumLost(e.lost));
    if e.acked != [] {
      RoundMarkers(counted, LastAcked(e));
      RecoveryMarkers(CountRound(counted, LastAcked(e)), LastAcked(e), e.lost != [], StartsRound(counted, e.acked));
      assert IsRoundStart(counted, LastAcked(e)) == IsRoundStart(s, LastAcked(e)) by {
        SameRoundStart(counted, s, LastAcked(e));
      }
    }
  }

  /** The same, for the actions of a run. */
  lemma {:induction false} StepMarkers(p: Params, mds: nat, run: seq<Action>, i: nat)
    requires ParamsOk(p) && ValidRun(run) && i < |run|
    ensures var s, t := Before(p, mds, run, i).sender, Before(p, mds, run, i + 1).sender;
            && s.currentRoundTripEnd <= t.currentRoundTripEnd && s.endRecoveryAt <= t.endRecoveryAt
            && (s.isAtFullBandwidth ==> t.isAtFullBandwidth)
            && (RoundStartsAt(p, mds, run, i) || RecoveryStartsAt(p, mds, run, i) ==>
                  run[i].Congestion? && run[i].event.acked != [] && t.currentRoundTripEnd == LastSent(run[..i]))
            && (RecoveryStartsAt(p, mds, run, i) <==>
                 s.isAtFullBandwidth && s.recoveryState == NotInRecovery && MixedAt(run, i))
            && (RecoveryEndsAt(p, mds, run, i) <==> run[i].Congestion? && EndsRecovery(s, run[i].event))
            && (!RoundStartsAt(p, mds, run, i) && !RecoveryStartsAt(p, mds, run, i) ==>
                  t.currentRoundTripEnd == s.currentRoundTripEnd)
            && t.endRecoveryAt == (if s.isAtFullBandwidth && MixedAt(run, i)
                                   then LastSent(run[..i]) else s.endRecoveryAt)
            && (s.recoveryState != NotInRecovery ==> s.isAtFullBandwidth)
            && RecoveryGoesOn(s.recoveryState, t.recoveryState, RoundStartsAt(p, mds, run, i))
  {
    hide OnCongestionEvent, WellFormed, WindowsOk, Before, WholeBytes, LastSent, Account, StartsRound;
    BeforeStep(p, mds, run, i);
    var k := Before(p, mds, run, i);
    if run[i].Congestion? {
      assert NonEmpty(run[i].event);
      EventKeepsInvariant(p, k, run[i].event);
      AccountMarkers(k.sender, run[i].event);
    }
  }

  lemma {:induction false} MarkersGrow(p: Params, mds: nat, run: seq<Action>, i: nat, j: nat)
    requires ParamsOk(p) && ValidRun(run) && i <= j <= |run|
    ensures Before(p, mds, run, i).sender.currentRoundTripEnd <= Before(p, mds, run, j).sender.currentRoundTripEnd
    ensures Before(p, mds, run, i).sender.endRecoveryAt <= Before(p, mds, run, j).sender.endRecoveryAt
    decreases j - i
  {
    hide Before;
    if i < j {
      MarkersGrow(p, mds, run, i, j - 1);
      StepMarkers(p, mds, run, j - 1);
    }
  }

  /** An acknowledged number above everything sent before action i was sent after it. */
  lemma {:induction false} SentSince(run: seq<Action>, i: nat, j: nat) returns (k: nat)
    requires ValidRun(run) && i < j < |run| && run[i].Congestion?
    requires run[j].Congestion? && run[j].event.acked != [] && LastAcked(run[j].event) > LastSent(run[..i])
    ensures i < k < j && SentAt(run, k, LastAcked(run[j].event))
  {
    k :| SentAt(run, k, LastAcked(run[j].event)) && k < j;
    if k < i {
      SentBelowLast(run, k, i);
    }
  }

  /**
   One flight per round: the acknowledgement that advances the round counter is for a packet
   sent after any earlier event that advanced it or started a recovery.
   */
  lemma {:induction false} OneFlightPerRound(p: Params, mds: nat, run: seq<Action>, i: nat, j: nat) returns (k: nat)
    requires ParamsOk(p) && ValidRun(run) && i < j < |run|
    requires RoundStartsAt(p, mds, run, i) || RecoveryStartsAt(p, mds, run, i)
    requires RoundStartsAt(p, mds, run, j)
    ensures i < k < j && SentAt(run, k, LastAcked(run[j].event))
  {
    hide Before, ValidRun, Invariant;
    StepMarkers(p, mds, run, i);
    MarkersGrow(p, mds, run, i + 1, j);
    SomethingSent(p, mds, run, i);
    k := SentSince(run, i, j);
  }

  lemma {:induction false} SomethingSent(p: Params, mds: nat, run: seq<Action>, i: nat)
    requires ParamsOk(p) && ValidRun(run)
    requires RoundStartsAt(p, mds, run, i) || RecoveryStartsAt(p, mds, run, i)
    ensures run[i].Congestion? && LastSent(run[..i]) != INVALID_PACKET_NUMBER
  {
    StepMarkers(p, mds, run, i);
    var j :| SentAt(run, j, LastAcked(run[i].event)) && j < i;
    SentBelowLast(run, j, i);
  }

  /** While recovery lasts, its end lies beyond every packet sent before an event with acks and losses. */
  lemma {:induction false} RecoveryCoversLosses(p: Params, mds: nat, run: seq<Action>, i: nat, j: nat)
    requires ParamsOk(p) && ValidRun(run) && i < j <= |run|
    requires MixedAt(run, i) && InRecoveryBefore(p, mds, run, j)
    ensures LastSent(run[..i]) <= Before(p, mds, run, j).sender.endRecoveryAt
    decreases j
  {
    hide Before, ValidRun, Invariant;
    StepMarkers(p, mds, run, j - 1);
    LastSentGrows(run, i, j - 1);
    if InRecoveryBefore(p, mds, run, j - 1) && i < j - 1 {
      RecoveryCoversLosses(p, mds, run, i, j - 1);
    }
  }

  lemma {:induction false} LastSentGrows(run: seq<Action>, i: nat, j: nat)
    requires ValidRun(run) && i <= j <= |run|
    ensures LastSent(run[..i]) <= LastSent(run[..j])
    decreases j - i
  {
    if i < j {
      LastSentGrows(run, i, j - 1);
      ValidPrefix(run, j);
      NumbersGrow(run[..j]);
      assert run[..j][..j - 1] == run[..j - 1];
    }
  }

  /**
   Recovery outlasts its losses: it ends only on the acknowledgement of a packet sent after
   every earlier event that carried both acknowledgements and losses.
   */
  lemma {:induction false} RecoveryOutlastsLosses(p: Params, mds: nat, run: seq<Action>, i: nat,
                                                  j: nat) returns (k: nat)
    requires ParamsOk(p) && ValidRun(run) && i < j < |run|
    requires MixedAt(run, i) && RecoveryEndsAt(p, mds, run, j)
    ensures run[j].Congestion? && run[j].event.acked != []
    ensures i < k < j && SentAt(run, k, LastAcked(run[j].event))
  {
    StepMarkers(p, mds, run, j);
    RecoveryCoversLosses(p, mds, run, i, j);
    k := SentSince(run, i, j);
  }

  /** The conservation phase of a recovery lasts until a packet sent after its start is acknowledged. */
  lemma {:induction false} ConservationLastsAFlight(p: Params, mds: nat, run: seq<Action>, i: nat,
                                                    j: nat) returns (k: nat)
    requires ParamsOk(p) && ValidRun(run) && i < j < |run|
    requires RecoveryStartsAt(p, mds, run, i)
    requires Before(p, mds, run, j).sender.recoveryState == Conservation
    requires Before(p, mds, run, j + 1).sender.recoveryState == Growth
    ensures run[j].Congestion? && run[j].event.acked != []
    ensures i < k < j && SentAt(run, k, LastAcked(run[j].event))
  {
    StepMarkers(p, mds, run, j);
    k := OneFlightPerRound(p, mds, run, i, j);
  }

  // ---------- Exactly when a round starts ----------

  /** Action j is the last before action i to start a round or a recovery. */
  ghost predicate LastMarkerAt(p: Params, mds: nat, run: seq<Action>, j: nat, i: nat)
    requires ParamsOk(p) && ValidRun(run)
  {
    && j < i && (RoundStartsAt(p, mds, run, j) || RecoveryStartsAt(p, mds, run, j))
    && forall k :: j < k < i ==> !RoundStartsAt(p, mds, run, k) && !RecoveryStartsAt(p, mds, run, k)
  }

  lemma {:induction false} MarkerIs(p: Params, mds: nat, run: seq<Action>, j: nat, i: nat)
    requires ParamsOk(p) && ValidRun(run) && i <= |run| && LastMarkerAt(p, mds, run, j, i)
    ensures Before(p, mds, run, i).sender.currentRoundTripEnd == LastSent(run[..j]) != INVALID_PACKET_NUMBER
    decreases i
  {
    hide Before, ValidRun, Invariant, RoundStartsAt, RecoveryStartsAt;
    if j == i - 1 {
      StepMarkers(p, mds, run, j);
      SomethingSent(p, mds, run, j);
    } else {
      MarkerIs(p, mds, run, j, i - 1);
      StepMarkers(p, mds, run, i - 1);
    }
  }

  /**
   A round starts exactly with an ack of a packet sent after the last event that started a round or
   a recovery.
   */
  lemma {:induction false} RoundStartsIff(p: Params, mds: nat, run: seq<Action>, j: nat, i: nat)
    requires ParamsOk(p) && ValidRun(run) && i < |run| && LastMarkerAt(p, mds, run, j, i)
    ensures RoundStartsAt(p, mds, run, i)
       <==> run[i].Congestion? && run[i].event.acked != [] && LastAcked(run[i].event) > LastSent(run[..j])
  {
    hide Before, ValidRun, Invariant, LastSent;
    MarkerIs(p, mds, run, j, i);
  }

  // ---------- Losses that recovery forgets ----------

  /** Action i carries losses and no acknowledgements. */
  ghost predicate LossOnlyAt(run: seq<Action>, i: nat) {
    i < |run| && run[i].Congestion? && run[i].event.acked == [] && run[i].event.lost != []
  }

  /**
   The documentation has recovery end after a loss-free round; an event with losses but no
   acknowledgements is not counted: it leaves the recovery and its end as they are.
   */
  lemma {:induction false} LossOnlyEventsDoNotExtendRecovery(p: Params, k: Stack, e: Event)
    requires ParamsOk(p) && Invariant(p, k) && e.acked == [] && e.lost != []
    ensures SameMarkers(k.sender, OnCongestionEvent(p, k, e).sender)
  {
    EventKeepsInvariant(p, k, e);
    hide OnCongestionEvent;
  }

  /** When nothing has been sent since the marker was set, recovery outlasts a loss-only event too. */
  lemma {:induction false} RecoveryOutlastsCoveredLosses(p: Params, mds: nat, run: seq<Action>, i: nat,
                                                         j: nat) returns (k: nat)
    requires ParamsOk(p) && ValidRun(run) && i < j < |run|
    requires LossOnlyAt(run, i) && Before(p, mds, run, i).sender.endRecoveryAt == LastSent(run[..i])
    requires RecoveryEndsAt(p, mds, run, j)
    ensures run[j].Congestion? && run[j].event.acked != []
    ensures i < k < j && SentAt(run, k, LastAcked(run[j].event))
  {
    hide Before, ValidRun, Invariant;
    StepMarkers(p, mds, run, j);
    MarkersGrow(p, mds, run, i, j);
    k := SentSince(run, i, j);
  }

  lemma {:induction false} Extend(p: Params, mds: nat, run: seq<Action>, a: Action)
    requires ParamsOk(p) && ValidRun(run)
    requires a.Send? ==> a.packetNumber > LastSent(run)
    requires a.Congestion? ==> NonEmpty(a.event)
    requires a.Congestion? && a.event.acked != [] ==> exists j :: SentAt(run, j, LastAcked(a.event))
    ensures ValidRun(run + [a])
    ensures LastSent(run + [a]) == if a.Send? then a.packetNumber else LastSent(run)
    ensures Run(p, mds, run + [a]) == Apply(p, Run(p, mds, run), a)
  {
    hide Apply, Invariant;
    var longer := run + [a];
    LastSentIsHighest(run);
    forall i | 0 <= i < |longer| && longer[i].Congestion? && longer[i].event.acked != []
      ensures exists j :: SentAt(longer, j, LastAcked(longer[i].event)) && j < i
    {
      var j :| SentAt(run, j, LastAcked(longer[i].event)) && (i < |run| ==> j < i);
      assert SentAt(longer, j, LastAcked(longer[i].event));
    }
    assert longer[..|run|] == run;
  }

  function WithEvents(run: seq<Action>, first: Event, second: Event): seq<Action> {
    run + [Congestion(first)] + [Congestion(second)]
  }

  /** The two events, added to the run, end a recovery on an ack of a packet sent before both. */
  ghost predicate EndsEarly(p: Params, mds: nat, run: seq<Action>, lossOnly: Event, ack: Event)
    requires ParamsOk(p)
  {
    var longer := WithEvents(run, lossOnly, ack);
    && ValidRun(longer) && RecoveryEndsAt(p, mds, longer, |run| + 1)
    && ack.acked != [] && LastAcked(ack) <= LastSent(run)
  }

  /**
   Exactly when the losses of a loss-only event are forgotten: if and only if something has been
   sent since the marker was set, the next ack may end the recovery although its packet was sent
   before those losses were reported.
   */
  lemma {:induction false} LossOnlyIsForgottenIff(p: Params, mds: nat, run: seq<Action>, lossOnly: Event)
    requires ParamsOk(p) && ValidRun(run) && Run(p, mds, run).sender.recoveryState != NotInRecovery
    requires lossOnly.acked == [] && lossOnly.lost != []
    ensures (exists ack :: EndsEarly(p, mds, run, lossOnly, ack)) <==>
        Run(p, mds, run).sender.endRecoveryAt < LastSent(run)
  {
    hide ValidRun, Run;
    Extend(p, mds, run, Congestion(lossOnly));
    SameMarkersAfter(p, mds, run, lossOnly);
    forall ack | EndsEarly(p, mds, run, lossOnly, ack) ensures Run(p, mds, run).sender.endRecoveryAt < LastSent(run) {
      EndsByItsTest(p, mds, run + [Congestion(lossOnly)], ack);
    }
    if Run(p, mds, run).sender.endRecoveryAt < LastSent(run) {
      LastSentIsHighest(run);
      var ack := Event(0, lossOnly.eventTime, [AckedPacket(LastSent(run), 0)], [], 0, 0, 0);
      AckEndsEarly(p, mds, run, lossOnly, ack);
    }
  }

  /** The ack that does is any one of the last packet sent. */
  lemma {:induction false} AckEndsEarly(p: Params, mds: nat, run: seq<Action>, lossOnly: Event, ack: Event)
    requires ParamsOk(p) && ValidRun(run) && Run(p, mds, run).sender.recoveryState != NotInRecovery
    requires Run(p, mds, run).sender.endRecoveryAt < LastSent(run)
    requires lossOnly.acked == [] && lossOnly.lost != []
    requires ack.acked != [] && ack.lost == [] && LastAcked(ack) == LastSent(run)
    ensures EndsEarly(p, mds, run, lossOnly, ack)
  {
    hide ValidRun, Run;
    Extend(p, mds, run, Congestion(lossOnly));
    SameMarkersAfter(p, mds, run, lossOnly);
    AckOfLast(p, mds, run, lossOnly, ack);
    EndsByItsTest(p, mds, run + [Congestion(lossOnly)], ack);
  }

  lemma {:induction false} EndsByItsTest(p: Params, mds: nat, run: seq<Action>, ack: Event)
    requires ParamsOk(p) && ValidRun(run) && ValidRun(run + [Congestion(ack)])
    ensures RecoveryEndsAt(p, mds, run + [Congestion(ack)], |run|) <==> EndsRecovery(Run(p, mds, run).sender, ack)
  {
    hide Run, EndsRecovery, ValidRun;
    StepMarkers(p, mds, run + [Congestion(ack)], |run|);
    assert (run + [Congestion(ack)])[..|run|] == run;
  }

  /** After a loss-only event, the last packet sent may be acknowledged. */
  lemma {:induction false} AckOfLast(p: Params, mds: nat, run: seq<Action>, lossOnly: Event, ack: Event)
    requires ParamsOk(p) && ValidRun(run) && ValidRun(run + [Congestion(lossOnly)])
    requires ack.acked != [] && ack.lost == [] && LastAcked(ack) == LastSent(run)
    ensures ValidRun(WithEvents(run, lossOnly, ack))
  {
    hide Run;
    LastSentIsHighest(run);
    var j :| SentAt(run, j, LastSent(run));
    assert SentAt(run + [Congestion(lossOnly)], j, LastAcked(ack));
    Extend(p, mds, run + [Congestion(lossOnly)], Congestion(ack));
  }

  lemma {:induction false} SameMarkersAfter(p: Params, mds: nat, run: seq<Action>, lossOnly: Event)
    requires ParamsOk(p) && ValidRun(run) && ValidRun(run + [Congestion(lossOnly)])
    requires lossOnly.acked == [] && lossOnly.lost != []
    ensures SameMarkers(Run(p, mds, run).sender, Run(p, mds, run + [Congestion(lossOnly)]).sender)
  {
    hide OnCongestionEvent;
    LossOnlyEventsDoNotExtendRecovery(p, Run(p, mds, run), lossOnly);
    assert (run + [Congestion(lossOnly)])[..|run|] == run;
  }
}
