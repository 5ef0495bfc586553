/**
 The two bandwidth samplers of the library agree: on the same sends, reports and app-limited calls
 they keep the same totals, the same start of slopes and the same flag, and draw the same samples,
 although one of them forgets packets as they are reported and the other does not
 (congestion_meta1/bandwidth_sampler.go, congestion_meta2/bandwidth_sampler.go).
 */
module SamplerAgreement {
  import opened PacketQueues
  import Old = ConservingSamplers
  import New = BandwidthSamplers
  import opened SamplerTraces

  /** The same operations for the newer sampler, which is told the bytes of a loss. */
  function Translated(ops: seq<Old.Op>): seq<Op> {
    if ops == [] then []
    else
      var init := ops[..|ops| - 1];
      Translated(init) + [Translation(ops[|ops| - 1], Old.Run(init))]
  }

  function Translation(op: Old.Op, s: Old.State): Op {
    match op
    case Send(time, p, bytes, inFlight, retransmittable) => Send(time, p, bytes, inFlight, retransmittable)
    case Ack(time, p) => Ack(time, p)
    case Lose(p) => Lose(p, if p in s.stats then s.stats[p].size else 0)
    case AppLimited => AppLimited
  }

  // ---------- Agreement ----------

  /** The two records of a packet. */
  ghost predicate SameRecord(a: Old.Snapshot, b: New.Snapshot) {
    && a.sendTime == b.sentTime && a.size == b.size
    && a.totalBytesSentAtLastAckedPacket == b.totalBytesSentAtLastAckedPacket
    && a.lastAckedPacketSentTime == b.lastAckedPacketSentTime && a.lastAckedPacketAckTime == b.lastAckedPacketAckTime
    && a.sendTimeState.isValid == b.sendTimeState.isValid
    && a.sendTimeState.isAppLimited == b.sendTimeState.isAppLimited
    && a.sendTimeState.totalBytesSent == b.sendTimeState.totalBytesSent
    && a.sendTimeState.totalBytesAcked == b.sendTimeState.totalBytesAcked
    && a.sendTimeState.totalBytesLost == b.sendTimeState.totalBytesLost
  }

  ghost predicate SameTotals(a: Old.State, b: New.State) {
    && a.totalBytesSent == b.totalBytesSent && a.totalBytesAcked == b.totalBytesAcked
    && a.totalBytesLost == b.totalBytesLost
    && a.totalBytesSentAtLastAckedPacket == b.totalBytesSentAtLastAckedPacket
    && a.lastAckedPacketSentTime == b.lastAckedPacketSentTime && a.lastAckedPacketAckTime == b.lastAckedPacketAckTime
  }

  /** The flags agree, and while a phase lasts, so do its ends. */
  ghost predicate SamePhase(a: Old.State, b: New.State) {
    && a.isAppLimited == b.isAppLimited
    && (a.isAppLimited ==> a.endOfAppLimitedPhase == b.endOfAppLimitedPhase)
    && (b.lastSentPacket != INVALID_PACKET_NUMBER ==> a.lastSendPacket == b.lastSentPacket)
  }

  /** What the older sampler tracks, the newer one does; beyond that it tracks reported packets only. */
  ghost predicate SameRecords(a: Old.State, b: New.State, reported: set<nat>) {
    && (forall p :: p in a.stats ==> p in b.tracked.live && SameRecord(a.stats[p], b.tracked.live[p]))
    && (forall p :: p in b.tracked.live ==> p in a.stats || p in reported)
  }

  ghost predicate Agree(a: Old.State, b: New.State, reported: set<nat>) {
    SameTotals(a, b) && SamePhase(a, b) && SameRecords(a, b, reported)
  }

  /** The packets acknowledged or lost. */
  function Reported(ops: seq<Old.Op>): set<nat> {
    if ops == [] then {}
    else
      var op := ops[|ops| - 1];
      Reported(ops[..|ops| - 1]) + if op.Ack? || op.Lose? then {op.packetNumber} else {}
  }

  /**
   The environment: packet numbers increase, no packet is reported twice, and the application is not
   limited before the first send.
   */
  ghost predicate Orderly(ops: seq<Old.Op>) {
    && (forall i, j :: 0 <= i < j < |ops| && ops[i].Send? && ops[j].Send? ==>
          ops[i].packetNumber < ops[j].packetNumber)
    && (forall i :: 0 <= i < |ops| && (ops[i].Ack? || ops[i].Lose?) ==> ops[i].packetNumber !in Reported(ops[..i]))
    && (forall i :: 0 <= i < |ops| && ops[i].AppLimited? ==> exists j :: 0 <= j < i && ops[j].Send?)
  }

  // ---------- One operation ----------

  lemma {:induction false} SendAgrees(a: Old.State, b: New.State, reported: set<nat>, op: Old.Op)
    requires Agree(a, b, reported) && New.WellFormed(b) && op.Send? && op.packetNumber > b.lastSentPacket
    ensures Agree(Old.Sent(a, op.sentTime, op.packetNumber, op.bytes, op.bytesInFlight, op.isRetransmittable),
                  New.Sent(b, op.sentTime, op.packetNumber, op.bytes, op.bytesInFlight, op.isRetransmittable), reported)
  {
    assert Accepts(b.tracked, op.packetNumber);
  }

  lemma {:induction false} AckAgrees(a: Old.State, b: New.State, reported: set<nat>, ackTime: nat, p: nat)
    requires Agree(a, b, reported) && Old.WellFormed(a) && New.WellFormed(b) && p !in reported
    ensures Agree(Old.Acked(a, ackTime, p).0, New.Acked(b, ackTime, p).0, reported + {p})
    ensures SameSample(Old.Acked(a, ackTime, p).1, New.Acked(b, ackTime, p).1)
  {
    hide New.BandwidthFromDelta;
    if p in a.stats {
      assert SameRecord(a.stats[p], b.tracked.live[p]);
      assert Old.SnapshotOk(a, a.stats[p]) && New.SnapshotOk(b, b.tracked.live[p]);
    }
  }

  /** The samples have the same rate, are both valid or both not, and then have the same round trip. */
  ghost predicate SameSample(a: Old.Sample, b: New.Sample) {
    && a.bandwidth == b.bandwidth && a.stateAtSend.isValid == b.stateAtSend.isValid
    && a.stateAtSend.isAppLimited == b.stateAtSend.isAppLimited
    && (a.rtt.Some? <==> b.stateAtSend.isValid) && (a.rtt.Some? ==> a.rtt.value == b.rtt)
  }

  lemma {:induction false} LossAgrees(a: Old.State, b: New.State, reported: set<nat>, p: nat)
    requires Agree(a, b, reported)
    ensures Agree(Old.Lost(a, p).0, New.Lost(b, p, if p in a.stats then a.stats[p].size else 0).0, reported + {p})
  {
  }

  lemma {:induction false} LimitAgrees(a: Old.State, b: New.State, reported: set<nat>)
    requires Agree(a, b, reported) && b.lastSentPacket != INVALID_PACKET_NUMBER
    ensures Agree(Old.LimitedByApp(a), New.LimitedByApp(b), reported)
  {
  }

  // ---------- Runs ----------

  lemma {:induction false} OrderlyPrefix(ops: seq<Old.Op>, n: nat)
    requires Orderly(ops) && n <= |ops|
    ensures Orderly(ops[..n])
  {
    var t := ops[..n];
    forall i | 0 <= i < n ensures t[..i] == ops[..i] {}
    forall i | 0 <= i < n && t[i].AppLimited? ensures exists j :: 0 <= j < i && t[j].Send? {
      var j :| 0 <= j < i && ops[j].Send?;
      assert t[j].Send?;
    }
  }

  lemma {:induction false} TranslatesEach(ops: seq<Old.Op>)
    ensures |Translated(ops)| == |ops|
    ensures forall i :: 0 <= i < |ops| ==>
              && (Translated(ops)[i].Send? <==> ops[i].Send?)
              && (ops[i].Send? ==> Translated(ops)[i].packetNumber == ops[i].packetNumber)
  {
    if ops != [] {
      TranslatesEach(ops[..|ops| - 1]);
    }
  }

  lemma {:induction false} TranslationIncreases(ops: seq<Old.Op>)
    requires Orderly(ops)
    ensures Increasing(Translated(ops))
    ensures (exists j :: 0 <= j < |ops| && ops[j].Send?) ==> LastSent(Translated(ops)) != INVALID_PACKET_NUMBER
  {
    TranslatesEach(ops);
    LastSentIsHighest(Translated(ops));
  }

  lemma {:induction false} OperationAgrees(ops: seq<Old.Op>, a: Old.State, b: New.State)
    requires ops != [] && Orderly(ops) && Old.WellFormed(a) && New.WellFormed(b)
    requires var init, op := ops[..|ops| - 1], ops[|ops| - 1];
             && Agree(a, b, Reported(init))
             && (op.Send? ==> op.packetNumber > b.lastSentPacket)
             && (op.AppLimited? ==> b.lastSentPacket != INVALID_PACKET_NUMBER)
    ensures Agree(Old.Apply(a, ops[|ops| - 1]), Apply(b, Translation(ops[|ops| - 1], a)), Reported(ops))
  {
    hide Agree, Old.WellFormed, New.WellFormed, Old.Sent, New.Sent, Old.Acked, New.Acked, Old.Lost, New.Lost;
    var init, op := ops[..|ops| - 1], ops[|ops| - 1];
    assert Reported(ops) == if op.Ack? || op.Lose? then Reported(init) + {op.packetNumber} else Reported(init);
    match op
    case Send(time, p, bytes, inFlight, retransmittable) => SendAgrees(a, b, Reported(init), op);
    case Ack(time, p) => AckAgrees(a, b, Reported(init), time, p);
    case Lose(p) => LossAgrees(a, b, Reported(init), p);
    case AppLimited => LimitAgrees(a, b, Reported(init));
  }

  /** After the same operations the two samplers agree. */
  lemma {:induction false} SamplersAgree(ops: seq<Old.Op>)
    requires Orderly(ops)
    ensures Increasing(Translated(ops))
    ensures Agree(Old.Run(ops), Run(Translated(ops)), Reported(ops))
    decreases |ops|
  {
    hide Agree, Old.WellFormed, New.WellFormed, Old.Apply, Apply, Increasing, Orderly, Translation;
    TranslationIncreases(ops);
    if ops == [] {
      StartsAgreed();
    } else {
      var n, init := |ops| - 1, ops[..|ops| - 1];
      OrderlyPrefix(ops, n);
      SamplersAgree(init);
      TranslationIncreases(init);
      BelowNext(Translated(ops));
      NextIsOrderly(ops);
      OperationAgrees(ops, Old.Run(init), Run(Translated(init)));
      assert Translated(ops)[..n] == Translated(init);
    }
  }

  lemma {:induction false} NextIsOrderly(ops: seq<Old.Op>)
    requires Orderly(ops) && ops != []
    ensures var n, init, op := |ops| - 1, ops[..|ops| - 1], ops[|ops| - 1];
            && |Translated(init)| == n && Translated(ops) == Translated(init) + [Translation(op, Old.Run(init))]
            && (op.AppLimited? ==> exists j :: 0 <= j < n && init[j].Send?)
            && (op.Send? ==> Translation(op, Old.Run(init)).Send?
                             && Translation(op, Old.Run(init)).packetNumber == op.packetNumber)
  {
    TranslatesEach(ops[..|ops| - 1]);
    if ops[|ops| - 1].AppLimited? {
      var j :| 0 <= j < |ops| - 1 && ops[j].Send?;
      assert ops[..|ops| - 1][j].Send?;
    }
  }

  lemma {:induction false} StartsAgreed()
    ensures Agree(Old.INITIAL, New.INITIAL, {})
  {
  }

  /** And an ack draws the same sample from both. */
  lemma {:induction false} SamplesAgree(ops: seq<Old.Op>, ackTime: nat, p: nat)
    requires Orderly(ops) && p !in Reported(ops)
    ensures Increasing(Translated(ops))
    ensures SameSample(Old.Acked(Old.Run(ops), ackTime, p).1, New.Acked(Run(Translated(ops)), ackTime, p).1)
  {
    hide Agree, Orderly, Increasing, Old.Acked, New.Acked;
    SamplersAgree(ops);
    AckAgrees(Old.Run(ops), Run(Translated(ops)), Reported(ops), ackTime, p);
  }

  /**
   An app-limited call before the first send tells them apart: acknowledged, packet 0 ends the phase
   for the newer sampler only.
   */
  lemma {:induction false} EarlyLimitDiffers()
    ensures var old_ := Old.Sent(Old.LimitedByApp(Old.INITIAL), 1, 0, 100, 0, true);
            Old.WellFormed(old_) && Old.Acked(old_, 2, 0).0.isAppLimited
    ensures var new_ := New.Sent(New.LimitedByApp(New.INITIAL), 1, 0, 100, 0, true);
            New.WellFormed(new_) && !New.Acked(new_, 2, 0).0.isAppLimited
  {
    Old.SendKeepsWellFormed(Old.LimitedByApp(Old.INITIAL), 1, 0, 100, 0, true);
    New.SentKeepsWellFormed(New.LimitedByApp(New.INITIAL), 1, 0, 100, 0, true);
  }
}
