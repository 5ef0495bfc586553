/**
 The sampler over whole traces of operations: exactly which packets are marked as
 app-limited (congestion_meta2/bandwidth_sampler.go:378-410).
 */
module SamplerTraces {
  import opened PacketQueues
  import opened BandwidthSamplers

  datatype Op =
    | Send(sentTime: nat, packetNumber: nat, bytes: nat, bytesInFlight: nat, isRetransmittable: bool)
    | Ack(ackTime: nat, packetNumber: nat)
    | Lose(packetNumber: nat, bytesLost: nat)
    | AppLimited
    | Obsolete(leastUnacked: int)

  /** Packets are sent with strictly increasing numbers. */
  ghost predicate Increasing(ops: seq<Op>) {
    forall i, j :: 0 <= i < j < |ops| && ops[i].Send? && ops[j].Send? ==> ops[i].packetNumber < ops[j].packetNumber
  }

  lemma {:induction false} IncreasingPrefix(ops: seq<Op>, n: nat)
    requires Increasing(ops) && n <= |ops|
    ensures Increasing(ops[..n])
  {
  }

  /** The number of the last packet sent. */
  function LastSent(ops: seq<Op>): int {
    if ops == [] then INVALID_PACKET_NUMBER
    else if ops[|ops| - 1].Send? then ops[|ops| - 1].packetNumber
    else LastSent(ops[..|ops| - 1])
  }

  function Apply(s: State, op: Op): State
    requires WellFormed(s)
  {
    match op
    case Send(time, p, bytes, inFlight, retransmittable) => Sent(s, time, p, bytes, inFlight, retransmittable)
    case Ack(time, p) => Acked(s, time, p).0
    case Lose(p, bytes) => Lost(s, p, bytes).0
    case AppLimited => LimitedByApp(s)
    case Obsolete(least) => Obsoleted(s, least)
  }

  lemma {:induction false} LastSentIsHighest(ops: seq<Op>)
    requires Increasing(ops)
    ensures LastSent(ops) >= INVALID_PACKET_NUMBER
    ensures forall i :: 0 <= i < |ops| && ops[i].Send? ==> ops[i].packetNumber <= LastSent(ops)
    ensures LastSent(ops) != INVALID_PACKET_NUMBER ==>
      exists i :: 0 <= i < |ops| && ops[i].Send? && ops[i].packetNumber == LastSent(ops)
  {
    if ops != [] {
      LastSentIsHighest(ops[..|ops| - 1]);
    }
  }

  lemma {:induction false} ApplyKeepsWellFormed(s: State, op: Op)
    requires WellFormed(s) && (op.Send? ==> op.packetNumber > s.lastSentPacket)
    ensures WellFormed(Apply(s, op))
    ensures Apply(s, op).lastSentPacket == if op.Send? then op.packetNumber else s.lastSentPacket
  {
    match op
    case Send(time, p, bytes, inFlight, retransmittable) =>
      SentKeepsWellFormed(s, time, p, bytes, inFlight, retransmittable);
    case Ack(time, p) => AckedKeepsWellFormed(s, time, p);
    case Lose(p, bytes) => OthersKeepWellFormed(s, p, bytes, 0);
    case AppLimited => OthersKeepWellFormed(s, 0, 0, 0);
    case Obsolete(least) => OthersKeepWellFormed(s, 0, 0, least);
  }

  /** The state after a trace; in every reachable state the slopes are well formed. */
  function Run(ops: seq<Op>): (s: State)
    requires Increasing(ops)
    ensures WellFormed(s) && s.lastSentPacket == LastSent(ops)
  {
    if ops == [] then INITIAL
    else
      var s := Run(ops[..|ops| - 1]);
      BelowNext(ops);
      ApplyKeepsWellFormed(s, ops[|ops| - 1]);
      Apply(s, ops[|ops| - 1])
  }

  lemma {:induction false} BelowNext(ops: seq<Op>)
    requires Increasing(ops) && ops != []
    ensures ops[|ops| - 1].Send? ==> ops[|ops| - 1].packetNumber > LastSent(ops[..|ops| - 1])
  {
    LastSentIsHighest(ops[..|ops| - 1]);
  }

  // ---------- The app-limited phase ----------

  /** Operation c is the most recent app-limited call. */
  ghost predicate LatestCall(ops: seq<Op>, c: nat) {
    c < |ops| && ops[c].AppLimited? && forall k :: c < k < |ops| ==> !ops[k].AppLimited?
  }

  /** Operation k acknowledges a tracked packet that was sent after operation c. */
  ghost predicate EndsPhase(ops: seq<Op>, c: nat, k: nat)
    requires Increasing(ops)
  {
    && c < k < |ops| && ops[k].Ack?
    && ops[k].packetNumber in Run(ops[..k]).tracked.live
    && exists j :: c < j < k && ops[j].Send? && ops[j].packetNumber == ops[k].packetNumber
  }

  /**
   The documented rule: an app-limited call was made, and since the most recent one no
   tracked packet sent after it has been acknowledged.
   */
  ghost predicate InAppLimitedPhase(ops: seq<Op>)
    requires Increasing(ops)
  {
    exists c: nat :: LatestCall(ops, c) && forall k: nat :: !EndsPhase(ops, c, k)
  }

  /** Operation j sent this packet, and its record is the one taken then. */
  ghost predicate RecordedAt(ops: seq<Op>, p: int, snapshot: Snapshot, j: nat)
    requires Increasing(ops)
  {
    && j < |ops| && ops[j].Send? && ops[j].isRetransmittable && ops[j].packetNumber == p
    && snapshot.size == ops[j].bytes && snapshot.sendTimeState.isAppLimited == Run(ops[..j]).isAppLimited
  }

  lemma {:induction false} SendTracks(s: State, op: Op)
    requires WellFormed(s) && op.Send? && op.isRetransmittable && op.packetNumber > s.lastSentPacket
    ensures var p := op.packetNumber;
            && p in Apply(s, op).tracked.live && Apply(s, op).tracked.live[p].size == op.bytes
            && Apply(s, op).tracked.live[p].sendTimeState.isAppLimited == s.isAppLimited
  {
    assert Accepts(s.tracked, op.packetNumber);
  }

  lemma {:induction false} OnlySendsTrack(s: State, op: Op, p: int)
    requires WellFormed(s) && p in Apply(s, op).tracked.live
    requires op.Send? && op.isRetransmittable ==> op.packetNumber != p
    ensures p in s.tracked.live && Apply(s, op).tracked.live[p] == s.tracked.live[p]
  {
  }

  lemma {:induction false} TrackedWasSent(ops: seq<Op>, p: int) returns (j: nat)
    requires Increasing(ops) && p in Run(ops).tracked.live
    ensures RecordedAt(ops, p, Run(ops).tracked.live[p], j)
    decreases |ops|
  {
    hide Increasing, Apply, WellFormed;
    var init, op := ops[..|ops| - 1], ops[|ops| - 1];
    IncreasingPrefix(ops, |ops| - 1);
    BelowNext(ops);
    if op.Send? && op.packetNumber == p && op.isRetransmittable {
      SendTracks(Run(init), op);
      j := |ops| - 1;
    } else {
      OnlySendsTrack(Run(init), op, p);
      j := TrackedWasSent(init, p);
      IncreasingPrefix(ops, j);
      assert init[..j] == ops[..j];
    }
  }

  /** A tracked packet was sent after operation c iff its number exceeds all those sent before. */
  lemma {:induction false} SentAfter(ops: seq<Op>, c: nat, p: int)
    requires Increasing(ops) && c < |ops| && !ops[c].Send?
    requires p in Run(ops).tracked.live
    ensures p > LastSent(ops[..c]) <==> exists j :: c < j < |ops| && ops[j].Send? && ops[j].packetNumber == p
  {
    var j := TrackedWasSent(ops, p);
    LastSentIsHighest(ops[..c]);
    if j < c {
      assert ops[..c][j] == ops[j];
    }
  }

  lemma {:induction false} NoCallNoPhase(ops: seq<Op>)
    requires Increasing(ops) && forall k :: 0 <= k < |ops| ==> !ops[k].AppLimited?
    ensures !Run(ops).isAppLimited
  {
    if ops != [] {
      NoCallNoPhase(ops[..|ops| - 1]);
    }
  }

  /**
   From the most recent call on, the end marker is the last packet sent before it, and the
   flag stays up until an operation ends the phase.
   */
  lemma {:induction false} FlagSinceCall(ops: seq<Op>, c: nat)
    requires Increasing(ops) && LatestCall(ops, c)
    ensures Run(ops).endOfAppLimitedPhase == LastSent(ops[..c])
    ensures Run(ops).isAppLimited <==> forall k: nat :: !EndsPhase(ops, c, k)
    decreases |ops|
  {
    hide WellFormed, Apply, Increasing;
    var n, init, op := |ops| - 1, ops[..|ops| - 1], ops[|ops| - 1];
    IncreasingPrefix(ops, n);
    PhaseStep(Run(init), op);
    if c < n {
      assert ops[..c] == init[..c];
      FlagSinceCall(init, c);
      forall k: nat | k < n ensures EndsPhase(ops, c, k) <==> EndsPhase(init, c, k) {
        assert init[..k] == ops[..k];
      }
      if op.Ack? && op.packetNumber in Run(init).tracked.live {
        SentAfter(init, c, op.packetNumber);
        AckEndsPhase(ops, c);
      }
    }
  }

  /** Only app-limited calls, and acks of tracked packets beyond the end marker, touch the phase. */
  lemma {:induction false} PhaseStep(s: State, op: Op)
    requires WellFormed(s)
    ensures var t := Apply(s, op);
            if op.AppLimited? then t.isAppLimited && t.endOfAppLimitedPhase == s.lastSentPacket
            else t.endOfAppLimitedPhase == s.endOfAppLimitedPhase
                 && (!op.Ack? || op.packetNumber !in s.tracked.live ==> t.isAppLimited == s.isAppLimited)
  {
  }

  lemma {:induction false} AckEndsPhase(ops: seq<Op>, c: nat)
    requires Increasing(ops) && ops != [] && c < |ops| - 1
    requires var init, op := ops[..|ops| - 1], ops[|ops| - 1];
             && op.Ack? && op.packetNumber in Run(init).tracked.live
             && Run(init).endOfAppLimitedPhase == LastSent(ops[..c])
             && (op.packetNumber > LastSent(ops[..c])
                 <==> exists j :: c < j < |init| && init[j].Send? && init[j].packetNumber == op.packetNumber)
    ensures Run(ops).isAppLimited <==> Run(ops[..|ops| - 1]).isAppLimited && !EndsPhase(ops, c, |ops| - 1)
    ensures Run(ops).endOfAppLimitedPhase == LastSent(ops[..c])
  {
    LastSentIsHighest(ops[..c]);
  }

  /** The sampler's flag is the documented phase. */
  lemma {:induction false} FlagIsPhase(ops: seq<Op>)
    requires Increasing(ops)
    ensures Run(ops).isAppLimited <==> InAppLimitedPhase(ops)
  {
    if forall k :: 0 <= k < |ops| ==> !ops[k].AppLimited? {
      NoCallNoPhase(ops);
    } else {
      var c := LatestCallExists(ops);
      FlagSinceCall(ops, c);
    }
  }

  lemma {:induction false} LatestCallExists(ops: seq<Op>) returns (c: nat)
    requires exists k :: 0 <= k < |ops| && ops[k].AppLimited?
    ensures LatestCall(ops, c)
  {
    if ops[|ops| - 1].AppLimited? {
      c := |ops| - 1;
    } else {
      c := LatestCallExists(ops[..|ops| - 1]);
    }
  }

  /** A tracked packet is marked as app-limited exactly when it was sent in an app-limited phase. */
  lemma {:induction false} MarkedIffSentInPhase(ops: seq<Op>, p: int) returns (j: nat)
    requires Increasing(ops) && p in Run(ops).tracked.live
    ensures j < |ops| && ops[j].Send? && ops[j].packetNumber == p
    ensures Run(ops).tracked.live[p].sendTimeState.isAppLimited <==> InAppLimitedPhase(ops[..j])
  {
    j := TrackedWasSent(ops, p);
    FlagIsPhase(ops[..j]);
  }

  /** The number of the last packet acknowledged, tracked or not. */
  function LastAcked(ops: seq<Op>): int {
    if ops == [] then INVALID_PACKET_NUMBER
    else if ops[|ops| - 1].Ack? then ops[|ops| - 1].packetNumber
    else LastAcked(ops[..|ops| - 1])
  }

  lemma {:induction false} LastAckedIs(ops: seq<Op>)
    requires Increasing(ops)
    ensures Run(ops).lastAckedPacket == LastAcked(ops)
  {
    hide WellFormed, Increasing;
    if ops != [] {
      IncreasingPrefix(ops, |ops| - 1);
      LastAckedIs(ops[..|ops| - 1]);
    }
  }

  // ---------- Acknowledged bytes ----------

  /** An ack of a tracked packet counts its size and leaves it tracked, so a second one counts it again. */
  lemma {:induction false} EveryAckOfATrackedPacketCounts(s: State, p: nat, ackTime: nat, later: nat)
    requires WellFormed(s) && p in s.tracked.live
    ensures var once := Acked(s, ackTime, p).0;
            && WellFormed(once) && p in once.tracked.live
            && once.totalBytesAcked == s.totalBytesAcked + s.tracked.live[p].size
            && Acked(once, later, p).0.totalBytesAcked == s.totalBytesAcked + 2 * s.tracked.live[p].size
            && Acked(once, later, p).0.totalBytesSent == s.totalBytesSent
  {
    AckedKeepsWellFormed(s, ackTime, p);
  }

  /** A tracked packet stays tracked, acknowledged or not, exactly as long as no removal makes it obsolete. */
  lemma {:induction false} TrackedUntilObsolete(ops: seq<Op>, i: nat, p: nat)
    requires Increasing(ops) && i <= |ops| && p in Run(ops[..i]).tracked.live
    ensures p in Run(ops).tracked.live <==> forall k :: i <= k < |ops| && ops[k].Obsolete? ==> ops[k].leastUnacked <= p
    ensures p in Run(ops).tracked.live ==> Run(ops).tracked.live[p] == Run(ops[..i]).tracked.live[p]
    decreases |ops|
  {
    hide WellFormed, Increasing, Apply;
    if i == |ops| {
      assert ops[..i] == ops;
    } else {
      var n := |ops| - 1;
      IncreasingPrefix(ops, n);
      IncreasingPrefix(ops, i);
      assert ops[..n][..i] == ops[..i];
      TrackedUntilObsolete(ops[..n], i, p);
      if ops[n].Send? {
        SentOnce(ops, i, p);
      }
      if p in Run(ops[..n]).tracked.live {
        StaysTracked(Run(ops[..n]), ops[n], p);
      } else {
        StaysUntracked(Run(ops[..n]), ops[n], p);
      }
    }
  }

  lemma {:induction false} StaysTracked(s: State, op: Op, p: nat)
    requires WellFormed(s) && p in s.tracked.live && (op.Send? ==> op.packetNumber > p)
    ensures p in Apply(s, op).tracked.live <==> (op.Obsolete? ==> op.leastUnacked <= p)
    ensures p in Apply(s, op).tracked.live ==> Apply(s, op).tracked.live[p] == s.tracked.live[p]
  {
  }

  lemma {:induction false} StaysUntracked(s: State, op: Op, p: nat)
    requires WellFormed(s) && p !in s.tracked.live && (op.Send? ==> op.packetNumber > p)
    ensures p !in Apply(s, op).tracked.live
  {
  }

  lemma {:induction false} SentOnce(ops: seq<Op>, i: nat, p: nat)
    requires Increasing(ops) && i < |ops| && p in Run(ops[..i]).tracked.live && ops[|ops| - 1].Send?
    ensures ops[|ops| - 1].packetNumber > p
  {
    var j := TrackedWasSent(ops[..i], p);
    assert ops[j].packetNumber == p;
  }

  /**
   The second of two acks of a packet, with anything in between, counts its bytes again if and
   only if no removal has made the packet obsolete.
   */
  lemma {:induction false} SecondAckCountsIff(ops: seq<Op>, i: nat, p: nat, ackTime: nat)
    requires Increasing(ops) && i < |ops| && ops[i].Ack? && ops[i].packetNumber == p && p in Run(ops[..i]).tracked.live
    ensures Run(ops[..i + 1]).totalBytesAcked == Run(ops[..i]).totalBytesAcked + Run(ops[..i]).tracked.live[p].size
    ensures Acked(Run(ops), ackTime, p).0.totalBytesAcked
         == Run(ops).totalBytesAcked
          + if forall k :: i < k < |ops| && ops[k].Obsolete? ==> ops[k].leastUnacked <= p
            then Run(ops[..i]).tracked.live[p].size else 0
  {
    hide WellFormed;
    assert ops[..i + 1][..i] == ops[..i];
    TrackedUntilObsolete(ops, i, p);
  }

  /** No packet is acknowledged twice. */
  ghost predicate AckedOnce(ops: seq<Op>) {
    forall i, j :: 0 <= i < j < |ops| && ops[i].Ack? && ops[j].Ack? ==> ops[i].packetNumber != ops[j].packetNumber
  }

  function AckedNumbers(ops: seq<Op>): set<nat> {
    set i: nat | i < |ops| && ops[i].Ack? :: ops[i].packetNumber
  }

  /** The bytes of the tracked sends among the operations whose numbers are in the set. */
  function BytesOf(ops: seq<Op>, numbers: set<nat>): nat {
    if ops == [] then 0
    else
      var op := ops[|ops| - 1];
      BytesOf(ops[..|ops| - 1], numbers)
      + if op.Send? && op.isRetransmittable && op.packetNumber in numbers then op.bytes else 0
  }

  lemma {:induction false} SentBytes(ops: seq<Op>, numbers: set<nat>)
    requires Increasing(ops)
    ensures BytesOf(ops, numbers) <= Run(ops).totalBytesSent
  {
    hide WellFormed;
    if ops != [] {
      SentBytes(ops[..|ops| - 1], numbers);
    }
  }

  /** A number that operation j alone sends adds its bytes. */
  lemma {:induction false} OneMoreNumber(ops: seq<Op>, numbers: set<nat>, j: nat)
    requires Increasing(ops) && j < |ops| && ops[j].Send? && ops[j].isRetransmittable && ops[j].packetNumber !in numbers
    ensures BytesOf(ops, numbers + {ops[j].packetNumber}) == BytesOf(ops, numbers) + ops[j].bytes
    decreases |ops|
  {
    var n, p := |ops| - 1, ops[j].packetNumber;
    if j == n {
      SameBytes(ops[..n], numbers, numbers + {p});
    } else {
      OneMoreNumber(ops[..n], numbers, j);
    }
  }

  lemma {:induction false} SameBytes(ops: seq<Op>, numbers: set<nat>, others: set<nat>)
    requires forall i :: 0 <= i < |ops| && ops[i].Send? ==>
        (ops[i].packetNumber in numbers <==> ops[i].packetNumber in others)
    ensures BytesOf(ops, numbers) == BytesOf(ops, others)
  {
    if ops != [] {
      SameBytes(ops[..|ops| - 1], numbers, others);
    }
  }

  lemma {:induction false} NumbersAfter(ops: seq<Op>)
    requires ops != []
    ensures var init, op := ops[..|ops| - 1], ops[|ops| - 1];
            AckedNumbers(ops) == if op.Ack? then AckedNumbers(init) + {op.packetNumber} else AckedNumbers(init)
  {
    var n, init, op := |ops| - 1, ops[..|ops| - 1], ops[|ops| - 1];
    forall x ensures x in AckedNumbers(ops) <==> x in AckedNumbers(init) || (op.Ack? && x == op.packetNumber) {
      if x in AckedNumbers(init) {
        var i: nat :| i < n && init[i].Ack? && init[i].packetNumber == x;
        assert ops[i].Ack? && ops[i].packetNumber == x;
      }
      if op.Ack? && x == op.packetNumber {
        assert ops[n].Ack? && ops[n].packetNumber == x;
      }
    }
  }

  /** Without repeated acks, the bytes counted as acknowledged are bytes of packets that were sent and acknowledged. */
  lemma {:induction false} AckedBytesWereSent(ops: seq<Op>)
    requires Increasing(ops) && AckedOnce(ops)
    ensures Run(ops).totalBytesAcked <= BytesOf(ops, AckedNumbers(ops)) <= Run(ops).totalBytesSent
    decreases |ops|
  {
    hide WellFormed, AckedNumbers;
    SentBytes(ops, AckedNumbers(ops));
    if ops != [] {
      var init, op := ops[..|ops| - 1], ops[|ops| - 1];
      AckedBytesWereSent(init);
      NumbersAfter(ops);
      if op.Ack? {
        NotYetAcked(ops);
        if op.packetNumber in Run(init).tracked.live {
          var j := TrackedWasSent(init, op.packetNumber);
          OneMoreNumber(init, AckedNumbers(init), j);
        } else {
          MoreNumbers(init, AckedNumbers(init), AckedNumbers(ops));
        }
      } else if op.Send? {
        assert BytesOf(ops, AckedNumbers(ops)) >= BytesOf(init, AckedNumbers(init));
      }
    }
  }

  lemma {:induction false} NotYetAcked(ops: seq<Op>)
    requires AckedOnce(ops) && ops != [] && ops[|ops| - 1].Ack?
    ensures ops[|ops| - 1].packetNumber !in AckedNumbers(ops[..|ops| - 1])
  {
  }

  lemma {:induction false} MoreNumbers(ops: seq<Op>, numbers: set<nat>, more: set<nat>)
    requires numbers <= more
    ensures BytesOf(ops, numbers) <= BytesOf(ops, more)
  {
    if ops != [] {
      MoreNumbers(ops[..|ops| - 1], numbers, more);
    }
  }

  lemma {:induction false} RunStep(ops: seq<Op>, op: Op)
    requires Increasing(ops + [op]) && Increasing(ops)
    ensures Run(ops + [op]) == Apply(Run(ops), op)
  {
    assert (ops + [op])[..|ops|] == ops;
  }

  const ONE_SEND := [Send(1, 0, 100, 0, true)]

  /** The hypothesis is needed: acknowledged twice, a packet of 100 bytes makes 200 acknowledged bytes of 100 sent. */
  lemma {:induction false} TwiceAckedExceedsSent()
    ensures var ops := ONE_SEND + [Ack(2, 0)] + [Ack(3, 0)];
            Increasing(ops) && Run(ops).totalBytesSent == 100 && Run(ops).totalBytesAcked == 200
  {
    hide WellFormed, Run, Acked;
    OneSend();
    RunStep(ONE_SEND, Ack(2, 0));
    RunStep(ONE_SEND + [Ack(2, 0)], Ack(3, 0));
    EveryAckOfATrackedPacketCounts(Run(ONE_SEND), 0, 2, 3);
  }

  lemma {:induction false} OneSend()
    ensures var s := Run(ONE_SEND); s.totalBytesSent == 100 && s.totalBytesAcked == 0
                                     && 0 in s.tracked.live && s.tracked.live[0].size == 100
  {
    assert ONE_SEND[..0] == [];
  }
}
