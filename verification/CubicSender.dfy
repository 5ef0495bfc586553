/**
 The CUBIC and NewReno sender of congestion_meta1/cubic_sender.go, and its windows over
 whole runs (section 3.2 of RFC 6582 for one reduction per loss event).

 The hybrid slow start's advice to leave slow start is an input of the call that asks for
 it.
 */
module CubicSenders {
  import opened Arithmetic
  import opened Cubics

  const INVALID_PACKET_NUMBER := -1
  const MAX_BURST_PACKETS := 3
  const RENO_BETA := 0.7
  const MIN_CONGESTION_WINDOW_PACKETS := 2
  const INITIAL_CONGESTION_WINDOW := 32
  const MAX_CONGESTION_WINDOW_PACKETS := 20000
  const MAX_BYTE_COUNT := 0x3fff_ffff_ffff_ffff  // 2^62 - 1

  /** What is fixed at construction: the algorithm, the first datagram size, and CUBIC's own parameters. */
  datatype Params = Params(reno: bool, maxDatagramSize: nat, mss: nat, numConnections: nat)

  predicate ParamsOk(p: Params) {
    p.maxDatagramSize > 0 && p.mss > 0 && p.numConnections > 0
  }

  datatype Sender = Sender(
    maxDatagramSize: nat,
    largestSentPacketNumber: int, largestAckedPacketNumber: int, largestSentAtLastCutback: int,
    lastCutbackExitedSlowstart: bool, congestionWindow: nat, slowStartThreshold: nat, numAckedPackets: nat,
    cubic: State)

  function Initial(p: Params): Sender {
    Sender(p.maxDatagramSize, INVALID_PACKET_NUMBER, INVALID_PACKET_NUMBER, INVALID_PACKET_NUMBER, false,
           INITIAL_CONGESTION_WINDOW * p.maxDatagramSize, MAX_BYTE_COUNT, 0, Cubics.CLEARED)
  }

  function MinWindow(s: Sender): nat { s.maxDatagramSize * MIN_CONGESTION_WINDOW_PACKETS }

  function MaxWindow(s: Sender): nat { s.maxDatagramSize * MAX_CONGESTION_WINDOW_PACKETS }

  // ---------- The operations ----------

  predicate InSlowStart(s: Sender) { s.congestionWindow < s.slowStartThreshold }

  predicate InRecovery(s: Sender) {
    s.largestAckedPacketNumber != INVALID_PACKET_NUMBER && s.largestAckedPacketNumber <= s.largestSentAtLastCutback
  }

  predicate IsCwndLimited(s: Sender, bytesInFlight: nat) {
    || bytesInFlight >= s.congestionWindow
    || (InSlowStart(s) && bytesInFlight > s.congestionWindow / 2)
    || s.congestionWindow - bytesInFlight <= MAX_BURST_PACKETS * s.maxDatagramSize
  }

  function PacketSent(s: Sender, packetNumber: nat, isRetransmittable: bool): Sender {
    if isRetransmittable then s.(largestSentPacketNumber := packetNumber) else s
  }

  function SlowStartExited(s: Sender, advised: bool): Sender {
    if InSlowStart(s) && advised then s.(slowStartThreshold := s.congestionWindow) else s
  }

  /** Nothing that an acknowledgement divides by is zero: the datagram size, the window and an epoch's estimate. */
  predicate Ready(s: Sender) {
    && s.maxDatagramSize > 0 && s.congestionWindow > 0
    && (s.cubic.epoch != Cubics.UNSET_TIME ==> s.cubic.estimatedTCPcongestionWindow > 0)
  }

  function CubicGrown(p: Params, s: Sender, ackedBytes: nat, eventTime: nat, minRtt: nat): Sender
    requires ParamsOk(p) && Ready(s)
  {
    var (cubic, window) :=
      AfterAck(p.mss, p.numConnections, s.cubic, ackedBytes, s.congestionWindow, minRtt, eventTime);
    s.(cubic := cubic, congestionWindow := Min(MaxWindow(s), window))
  }

  function RenoGrown(s: Sender): Sender
    requires Ready(s)
  {
    if s.numAckedPackets + 1 >= s.congestionWindow / s.maxDatagramSize
    then s.(congestionWindow := s.congestionWindow + s.maxDatagramSize, numAckedPackets := 0)
    else s.(numAckedPackets := s.numAckedPackets + 1)
  }

  function WindowIncreased(p: Params, s: Sender, ackedBytes: nat, priorInFlight: nat, eventTime: nat,
                           minRtt: nat): Sender
    requires ParamsOk(p) && Ready(s)
  {
    if !IsCwndLimited(s, priorInFlight) then s.(cubic := s.cubic.(epoch := Cubics.UNSET_TIME))
    else if s.congestionWindow >= MaxWindow(s) then s
    else if InSlowStart(s) then s.(congestionWindow := s.congestionWindow + s.maxDatagramSize)
    else if p.reno then RenoGrown(s)
    else CubicGrown(p, s, ackedBytes, eventTime, minRtt)
  }

  function PacketAcked(p: Params, s: Sender, packetNumber: nat, ackedBytes: nat, priorInFlight: nat, eventTime: nat,
                       minRtt: nat): Sender
    requires ParamsOk(p) && Ready(s)
  {
    var noted := s.(largestAckedPacketNumber := Max(packetNumber, s.largestAckedPacketNumber));
    if InRecovery(noted) then noted
    else WindowIncreased(p, noted, ackedBytes, priorInFlight, eventTime, minRtt)
  }

  /** A loss cuts the window back only when the packet was sent after the last cutback. */
  predicate CutsBack(s: Sender, packetNumber: nat) {
    packetNumber > s.largestSentAtLastCutback
  }

  function PacketLost(p: Params, s: Sender, packetNumber: nat): Sender
    requires ParamsOk(p)
  {
    if !CutsBack(s, packetNumber) then s
    else
      var (cubic, reduced) := if p.reno then (s.cubic, Scaled(RENO_BETA, s.congestionWindow))
                              else AfterLoss(p.mss, p.numConnections, s.cubic, s.congestionWindow);
      var window: nat := if reduced < MinWindow(s) then MinWindow(s) else reduced;
      s.(lastCutbackExitedSlowstart := InSlowStart(s), cubic := cubic, congestionWindow := window,
         slowStartThreshold := window, largestSentAtLastCutback := s.largestSentPacketNumber, numAckedPackets := 0)
  }

  function TimedOut(s: Sender, packetsRetransmitted: bool): Sender {
    var forgotten := s.(largestSentAtLastCutback := INVALID_PACKET_NUMBER);
    if packetsRetransmitted
    then forgotten.(cubic := Cubics.CLEARED, slowStartThreshold := s.congestionWindow / 2,
                    congestionWindow := MinWindow(s))
    else forgotten
  }

  /** A window at its minimum stays there when the datagram size is raised; any other window is kept. */
  function Resized(s: Sender, size: nat): Sender {
    var t := s.(maxDatagramSize := size);
    if s.congestionWindow == MinWindow(s) then t.(congestionWindow := MinWindow(t)) else t
  }

  // ---------- The sender ----------

  class CubicSender {
    const params: Params
    const cubic: Cubic
    var maxDatagramSize: nat
    var largestSentPacketNumber: int
    var largestAckedPacketNumber: int
    var largestSentAtLastCutback: int
    var lastCutbackExitedSlowstart: bool
    var congestionWindow: nat
    var slowStartThreshold: nat
    var numAckedPackets: nat

    ghost predicate Valid()
      reads this, cubic
    {
      && ParamsOk(params) && maxDatagramSize > 0
      && cubic.Valid() && cubic.mss == params.mss && cubic.numConnections == params.numConnections
    }

    ghost function Model(): Sender
      reads this, cubic
    {
      Sender(maxDatagramSize, largestSentPacketNumber, largestAckedPacketNumber, largestSentAtLastCutback,
             lastCutbackExitedSlowstart, congestionWindow, slowStartThreshold, numAckedPackets, cubic.Model())
    }

    constructor (reno: bool, maxDatagramSize: nat, mss: nat)
      requires maxDatagramSize > 0 && mss > 0
      ensures Valid() && fresh(cubic) && params == Params(reno, maxDatagramSize, mss, 1)
      ensures Model() == Initial(params)
    {
      params := Params(reno, maxDatagramSize, mss, 1);
      cubic := new Cubic(mss);
      this.maxDatagramSize := maxDatagramSize;
      largestSentPacketNumber, largestAckedPacketNumber := INVALID_PACKET_NUMBER, INVALID_PACKET_NUMBER;
      largestSentAtLastCutback, lastCutbackExitedSlowstart := INVALID_PACKET_NUMBER, false;
      congestionWindow, slowStartThreshold := INITIAL_CONGESTION_WINDOW * maxDatagramSize, MAX_BYTE_COUNT;
      numAckedPackets := 0;
    }

    function MinCongestionWindow(): (window: nat)
      reads this, cubic
      ensures window == MinWindow(Model())
    {
      maxDatagramSize * MIN_CONGESTION_WINDOW_PACKETS
    }

    function MaxCongestionWindow(): (window: nat)
      reads this, cubic
      ensures window == MaxWindow(Model())
    {
      maxDatagramSize * MAX_CONGESTION_WINDOW_PACKETS
    }

    method OnPacketSent(packetNumber: nat, isRetransmittable: bool)
      requires Valid()
      modifies this
      ensures Valid() && Model() == PacketSent(old(Model()), packetNumber, isRetransmittable)
    {
      if !isRetransmittable {
        return;
      }
      largestSentPacketNumber := packetNumber;
    }

    method MaybeExitSlowStart(advised: bool)
      requires Valid()
      modifies this
      ensures Valid() && Model() == SlowStartExited(old(Model()), advised)
    {
      if congestionWindow < slowStartThreshold && advised {
        slowStartThreshold := congestionWindow;
      }
    }

    method OnPacketAcked(ackedPacketNumber: nat, ackedBytes: nat, priorInFlight: nat, eventTime: nat, minRtt: nat)
      requires Valid() && Ready(Model())
      modifies this, cubic
      ensures Valid()
      ensures Model()
           == PacketAcked(params, old(Model()), ackedPacketNumber, ackedBytes, priorInFlight, eventTime, minRtt)
    {
      hide AfterAck, IsCwndLimited;
      largestAckedPacketNumber := Max(ackedPacketNumber, largestAckedPacketNumber);
      if largestAckedPacketNumber != INVALID_PACKET_NUMBER && largestAckedPacketNumber <= largestSentAtLastCutback {
        return;
      }
      MaybeIncreaseCwnd(ackedBytes, priorInFlight, eventTime, minRtt);
    }

    method MaybeIncreaseCwnd(ackedBytes: nat, priorInFlight: nat, eventTime: nat, minRtt: nat)
      requires Valid() && Ready(Model())
      modifies this, cubic
      ensures Valid()
      ensures Model() == WindowIncreased(params, old(Model()), ackedBytes, priorInFlight, eventTime, minRtt)
    {
      hide AfterAck, IsCwndLimited;
      if !IsLimitedByWindow(priorInFlight) {
        cubic.OnApplicationLimited();
        return;
      }
      if congestionWindow >= MaxCongestionWindow() {
        return;
      }
      if congestionWindow < slowStartThreshold {
        congestionWindow := congestionWindow + maxDatagramSize;
        return;
      }
      if params.reno {
        numAckedPackets := numAckedPackets + 1;
        if numAckedPackets >= congestionWindow / maxDatagramSize {
          congestionWindow := congestionWindow + maxDatagramSize;
          numAckedPackets := 0;
        }
      } else {
        var window := cubic.CongestionWindowAfterAck(ackedBytes, congestionWindow, minRtt, eventTime);
        congestionWindow := Min(MaxCongestionWindow(), window);
      }
    }

    predicate IsLimitedByWindow(bytesInFlight: nat)
      reads this, cubic
      ensures IsLimitedByWindow(bytesInFlight) == IsCwndLimited(Model(), bytesInFlight)
    {
      if bytesInFlight >= congestionWindow then true
      else
        var availableBytes := congestionWindow - bytesInFlight;
        var slowStartLimited := congestionWindow < slowStartThreshold && bytesInFlight > congestionWindow / 2;
        slowStartLimited || availableBytes <= MAX_BURST_PACKETS * maxDatagramSize
    }

    method OnCongestionEvent(packetNumber: nat)
      requires Valid()
      modifies this, cubic
      ensures Valid() && Model() == PacketLost(params, old(Model()), packetNumber)
    {
      hide AfterLoss;
      if packetNumber <= largestSentAtLastCutback {
        return;
      }
      lastCutbackExitedSlowstart := congestionWindow < slowStartThreshold;
      if params.reno {
        congestionWindow := Scaled(RENO_BETA, congestionWindow);
      } else {
        congestionWindow := cubic.CongestionWindowAfterPacketLoss(congestionWindow);
      }
      if congestionWindow < MinCongestionWindow() {
        congestionWindow := MinCongestionWindow();
      }
      slowStartThreshold := congestionWindow;
      largestSentAtLastCutback := largestSentPacketNumber;
      numAckedPackets := 0;
    }

    method OnRetransmissionTimeout(packetsRetransmitted: bool)
      requires Valid()
      modifies this, cubic
      ensures Valid() && Model() == TimedOut(old(Model()), packetsRetransmitted)
    {
      largestSentAtLastCutback := INVALID_PACKET_NUMBER;
      if !packetsRetransmitted {
        return;
      }
      cubic.Reset();
      slowStartThreshold := congestionWindow / 2;
      congestionWindow := MinCongestionWindow();
    }

    method SetMaxDatagramSize(size: nat)
      requires Valid() && size >= maxDatagramSize
      modifies this
      ensures Valid() && Model() == Resized(old(Model()), size)
    {
      var cwndIsMinCwnd := congestionWindow == MinCongestionWindow();
      maxDatagramSize := size;
      if cwndIsMinCwnd {
        congestionWindow := MinCongestionWindow();
      }
    }
  }

  // ---------- Runs ----------

  datatype Action =
    | Send(packetNumber: nat, isRetransmittable: bool)
    | Ack(packetNumber: nat, ackedBytes: nat, priorInFlight: nat, eventTime: nat, minRtt: nat)
    | Lose(packetNumber: nat)
    | Timeout(packetsRetransmitted: bool)
    | ExitSlowStart(advised: bool)
    | Raise(bytes: nat)

  function Apply(p: Params, s: Sender, a: Action): Sender
    requires ParamsOk(p) && Ready(s)
  {
    match a
    case Send(n, retransmittable) => PacketSent(s, n, retransmittable)
    case Ack(n, bytes, inFlight, time, rtt) => PacketAcked(p, s, n, bytes, inFlight, time, rtt)
    case Lose(n) => PacketLost(p, s, n)
    case Timeout(retransmitted) => TimedOut(s, retransmitted)
    case ExitSlowStart(advised) => SlowStartExited(s, advised)
    case Raise(bytes) => Resized(s, s.maxDatagramSize + bytes)
  }

  /** At least this many bytes: the window, and in a CUBIC epoch the Reno estimate. */
  ghost predicate AtLeast(s: Sender, least: nat) {
    && s.congestionWindow >= least
    && (s.cubic.epoch != Cubics.UNSET_TIME ==> s.cubic.estimatedTCPcongestionWindow >= least)
  }

  /** The datagram size never falls, and the window is between two of the first and 20001 of the current size. */
  ghost predicate Invariant(p: Params, s: Sender) {
    && s.maxDatagramSize >= p.maxDatagramSize
    && AtLeast(s, 2 * p.maxDatagramSize) && s.congestionWindow < MaxWindow(s) + s.maxDatagramSize
    && s.largestSentAtLastCutback <= s.largestSentPacketNumber
    && INVALID_PACKET_NUMBER <= s.largestSentPacketNumber
    && (p.reno ==> s.cubic.epoch == Cubics.UNSET_TIME)
  }

  lemma {:induction false} InvariantReady(p: Params, s: Sender)
    requires ParamsOk(p) && Invariant(p, s)
    ensures Ready(s)
  {
  }

  lemma {:induction false} CubicGrowthBounds(p: Params, s: Sender, ackedBytes: nat, eventTime: nat, minRtt: nat,
                                             least: nat)
    requires ParamsOk(p) && Ready(s) && AtLeast(s, least) && least <= MaxWindow(s)
    ensures var t := CubicGrown(p, s, ackedBytes, eventTime, minRtt);
            && AtLeast(t, least) && t.congestionWindow <= MaxWindow(s)
            && t == s.(cubic := t.cubic, congestionWindow := t.congestionWindow)
  {
    hide CubeRoot, CubeFactor, Curve, Elapsed, RenoGrowth;
  }

  lemma {:induction false} IncreaseBounds(p: Params, s: Sender, ackedBytes: nat, priorInFlight: nat,
                                          eventTime: nat, minRtt: nat, least: nat)
    requires ParamsOk(p) && Ready(s) && AtLeast(s, least) && least <= MaxWindow(s)
    requires s.congestionWindow < MaxWindow(s) + s.maxDatagramSize
    ensures var t := WindowIncreased(p, s, ackedBytes, priorInFlight, eventTime, minRtt);
            && AtLeast(t, least) && t.congestionWindow < MaxWindow(s) + s.maxDatagramSize
            && t == s.(cubic := t.cubic, congestionWindow := t.congestionWindow, numAckedPackets := t.numAckedPackets)
            && (p.reno && s.cubic.epoch == Cubics.UNSET_TIME ==> t.cubic.epoch == Cubics.UNSET_TIME)
  {
    hide CubicGrown, IsCwndLimited;
    if s.congestionWindow < MaxWindow(s) {
      CubicGrowthBounds(p, s, ackedBytes, eventTime, minRtt, least);
    }
  }

  lemma {:induction false} AckBounds(p: Params, s: Sender, a: Action, least: nat)
    requires ParamsOk(p) && Ready(s) && AtLeast(s, least) && least <= MaxWindow(s) && a.Ack?
    requires s.congestionWindow < MaxWindow(s) + s.maxDatagramSize
    ensures var t := Apply(p, s, a);
            && AtLeast(t, least) && t.congestionWindow < MaxWindow(s) + s.maxDatagramSize
            && t == s.(cubic := t.cubic, congestionWindow := t.congestionWindow, numAckedPackets := t.numAckedPackets,
                       largestAckedPacketNumber := t.largestAckedPacketNumber)
            && (p.reno && s.cubic.epoch == Cubics.UNSET_TIME ==> t.cubic.epoch == Cubics.UNSET_TIME)
  {
    hide WindowIncreased, Ready;
    var noted := s.(largestAckedPacketNumber := Max(a.packetNumber, s.largestAckedPacketNumber));
    StillReady(s, noted);
    IncreaseBounds(p, noted, a.ackedBytes, a.priorInFlight, a.eventTime, a.minRtt, least);
  }

  lemma {:induction false} StillReady(s: Sender, t: Sender)
    requires Ready(s) && t == s.(largestAckedPacketNumber := t.largestAckedPacketNumber)
    ensures Ready(t)
  {
  }

  /** Every operation keeps the bounds. */
  lemma {:induction false} ApplyKeepsInvariant(p: Params, s: Sender, a: Action)
    requires ParamsOk(p) && Invariant(p, s) && Ready(s)
    requires a.Send? ==> a.packetNumber > s.largestSentPacketNumber
    ensures Invariant(p, Apply(p, s, a))
  {
    hide WindowIncreased, Ready, Beta, BetaLastMax, Scaled;
    if a.Ack? {
      hide Apply;
      AckBounds(p, s, a, 2 * p.maxDatagramSize);
    }
  }

  /**
   The environment: retransmittable packets are sent with strictly increasing numbers, only
   they are reported lost, and only after they were sent.
   */
  ghost predicate ValidRun(run: seq<Action>) {
    && (forall i, j :: 0 <= i < j < |run| && run[i].Send? && run[j].Send? ==> run[i].packetNumber < run[j].packetNumber)
    && (forall i :: 0 <= i < |run| && run[i].Lose? ==> exists j :: SentAt(run, j, run[i].packetNumber) && j < i)
  }

  ghost predicate SentAt(run: seq<Action>, j: int, packetNumber: int) {
    0 <= j < |run| && run[j].Send? && run[j].isRetransmittable && run[j].packetNumber == packetNumber
  }

  function LargestSent(run: seq<Action>): int {
    if run == [] then INVALID_PACKET_NUMBER
    else if run[|run| - 1].Send? && run[|run| - 1].isRetransmittable then run[|run| - 1].packetNumber
    else LargestSent(run[..|run| - 1])
  }

  lemma {:induction false} ValidPrefix(run: seq<Action>, n: nat)
    requires ValidRun(run) && n <= |run|
    ensures ValidRun(run[..n])
  {
    var t := run[..n];
    forall i | 0 <= i < |t| && t[i].Lose? ensures exists j :: SentAt(t, j, t[i].packetNumber) && j < i {
      var j :| SentAt(run, j, run[i].packetNumber) && j < i;
      assert SentAt(t, j, t[i].packetNumber);
    }
  }

  lemma {:induction false} LargestSentIsHighest(run: seq<Action>)
    requires ValidRun(run)
    ensures LargestSent(run) >= INVALID_PACKET_NUMBER
    ensures forall i, n :: SentAt(run, i, n) ==> n <= LargestSent(run)
    ensures LargestSent(run) != INVALID_PACKET_NUMBER ==> exists i :: SentAt(run, i, LargestSent(run))
  {
    if run != [] {
      var last, init := |run| - 1, run[..|run| - 1];
      ValidPrefix(run, last);
      LargestSentIsHighest(init);
      forall i, n | SentAt(run, i, n) ensures n <= LargestSent(run) {
        if i < last {
          assert SentAt(init, i, n);
        }
      }
      if SentAt(run, last, LargestSent(run)) {
      } else if LargestSent(run) != INVALID_PACKET_NUMBER {
        var i :| SentAt(init, i, LargestSent(init));
        assert SentAt(run, i, LargestSent(run));
      }
    }
  }

  lemma {:induction false} NumbersGrow(run: seq<Action>)
    requires ValidRun(run) && run != [] && run[|run| - 1].Send?
    ensures run[|run| - 1].packetNumber > LargestSent(run[..|run| - 1])
  {
    var init := run[..|run| - 1];
    ValidPrefix(run, |run| - 1);
    LargestSentIsHighest(init);
    if LargestSent(init) != INVALID_PACKET_NUMBER {
      var i :| SentAt(init, i, LargestSent(init));
      assert run[i].Send?;
    }
  }

  lemma {:induction false} InitialInvariant(p: Params)
    requires ParamsOk(p)
    ensures Invariant(p, Initial(p)) && Ready(Initial(p))
  {
  }

  lemma {:induction false} LargestSentStep(p: Params, s: Sender, a: Action)
    requires ParamsOk(p) && Ready(s)
    ensures Apply(p, s, a).largestSentPacketNumber
         == if a.Send? && a.isRetransmittable then a.packetNumber else s.largestSentPacketNumber
  {
    hide AfterAck, AfterLoss, IsCwndLimited;
  }

  /** The state after a run: the window is within its bounds in every reachable one. */
  function Run(p: Params, run: seq<Action>): (s: Sender)
    requires ParamsOk(p) && ValidRun(run)
    ensures Invariant(p, s) && Ready(s) && s.largestSentPacketNumber == LargestSent(run)
  {
    InitialInvariant(p);
    if run == [] then Initial(p)
    else
      ValidPrefix(run, |run| - 1);
      assert run[|run| - 1].Send? ==> run[|run| - 1].packetNumber > LargestSent(run[..|run| - 1]) by {
        if run[|run| - 1].Send? { NumbersGrow(run); }
      }
      var s := Run(p, run[..|run| - 1]);
      ApplyKeepsInvariant(p, s, run[|run| - 1]);
      LargestSentStep(p, s, run[|run| - 1]);
      InvariantReady(p, Apply(p, s, run[|run| - 1]));
      Apply(p, s, run[|run| - 1])
  }

  /** The state just before action i of a run. */
  function Before(p: Params, run: seq<Action>, i: nat): (s: Sender)
    requires ParamsOk(p) && ValidRun(run) && i <= |run|
    ensures Invariant(p, s) && Ready(s) && s.largestSentPacketNumber == LargestSent(run[..i])
  {
    ValidPrefix(run, i);
    Run(p, run[..i])
  }

  lemma {:induction false} BeforeStep(p: Params, run: seq<Action>, i: nat)
    requires ParamsOk(p) && ValidRun(run) && i < |run|
    ensures Before(p, run, i + 1) == Apply(p, Before(p, run, i), run[i])
  {
    hide Apply, Invariant, Ready;
    ValidPrefix(run, i + 1);
    assert run[..i + 1][..i] == run[..i];
  }

  /** By how much the datagram size has been raised in all. */
  function Raised(run: seq<Action>): nat {
    if run == [] then 0
    else Raised(run[..|run| - 1]) + if run[|run| - 1].Raise? then run[|run| - 1].bytes else 0
  }

  lemma {:induction false} SizeStep(p: Params, s: Sender, a: Action)
    requires ParamsOk(p) && Ready(s)
    ensures Apply(p, s, a).maxDatagramSize == s.maxDatagramSize + if a.Raise? then a.bytes else 0
  {
    hide AfterAck, AfterLoss, IsCwndLimited;
  }

  lemma {:induction false} SizeIsRaised(p: Params, run: seq<Action>)
    requires ParamsOk(p) && ValidRun(run)
    ensures Run(p, run).maxDatagramSize == p.maxDatagramSize + Raised(run)
  {
    hide Apply, ValidRun, Invariant, Ready;
    if run != [] {
      ValidPrefix(run, |run| - 1);
      SizeIsRaised(p, run[..|run| - 1]);
      SizeStep(p, Run(p, run[..|run| - 1]), run[|run| - 1]);
    }
  }

  /**
   In every run, with CUBIC as with Reno, the window is at least two datagrams of the first size
   and less than 20001 of the current one; while the size is not raised they are the same.
   */
  lemma {:induction false} WindowAlwaysInBounds(p: Params, run: seq<Action>)
    requires ParamsOk(p) && ValidRun(run)
    ensures 2 * p.maxDatagramSize <= Run(p, run).congestionWindow < 20001 * (p.maxDatagramSize + Raised(run))
  {
    SizeIsRaised(p, run);
  }

  // ---------- Raising the datagram size ----------

  /** Exactly when raising the datagram size leaves the window at the new minimum or above. */
  lemma {:induction false} ResizedReachesMinimumIff(s: Sender, size: nat)
    requires size >= s.maxDatagramSize
    ensures var t := Resized(s, size);
            t.congestionWindow >= MinWindow(t) <==> s.congestionWindow == MinWindow(s) || s.congestionWindow >= 2 * size
  {
  }

  /** A loss that cuts the window back, or a timeout that retransmits. */
  predicate Restarts(s: Sender, a: Action) {
    (a.Lose? && CutsBack(s, a.packetNumber)) || (a.Timeout? && a.packetsRetransmitted)
  }

  lemma {:induction false} MinimumStep(p: Params, s: Sender, a: Action)
    requires ParamsOk(p) && Invariant(p, s) && Ready(s)
    ensures Restarts(s, a) || (AtLeast(s, MinWindow(s)) && !a.Raise?) ==>
        AtLeast(Apply(p, s, a), MinWindow(Apply(p, s, a)))
  {
    hide WindowIncreased, Beta, BetaLastMax, Scaled;
    if a.Ack? && AtLeast(s, MinWindow(s)) {
      hide Apply;
      AckBounds(p, s, a, MinWindow(s));
    }
  }

  /**
   A window below the current minimum of two datagrams is left over from a smaller size: the
   size has been raised, and no loss has cut the window back and no timeout restarted it since.
   */
  lemma {:induction false} BelowMinimumSinceRaise(p: Params, run: seq<Action>, n: nat) returns (k: nat)
    requires ParamsOk(p) && ValidRun(run) && n <= |run|
    requires !AtLeast(Before(p, run, n), MinWindow(Before(p, run, n)))
    ensures k < n && run[k].Raise?
    ensures forall m :: k < m < n ==> !Restarts(Before(p, run, m), run[m])
    decreases n
  {
    hide Before, Apply, ValidRun, AtLeast, Restarts, Invariant, Ready;
    if n == 0 {
      StartsAtMinimum(p, run);
    } else {
      BeforeStep(p, run, n - 1);
      MinimumStep(p, Before(p, run, n - 1), run[n - 1]);
      if run[n - 1].Raise? {
        k := n - 1;
      } else {
        k := BelowMinimumSinceRaise(p, run, n - 1);
      }
    }
  }

  lemma {:induction false} StartsAtMinimum(p: Params, run: seq<Action>)
    requires ParamsOk(p) && ValidRun(run)
    ensures AtLeast(Before(p, run, 0), MinWindow(Before(p, run, 0)))
  {
    assert run[..0] == [];
  }

  // ---------- One reduction per loss event ----------

  /** Action i reports a loss that cuts the window back. */
  ghost predicate CutsBackAt(p: Params, run: seq<Action>, i: nat)
    requires ParamsOk(p) && ValidRun(run)
  {
    i < |run| && run[i].Lose? && CutsBack(Before(p, run, i), run[i].packetNumber)
  }

  lemma {:induction false} CutbackStep(p: Params, s: Sender, a: Action)
    requires ParamsOk(p) && Invariant(p, s) && Ready(s)
    ensures var t := Apply(p, s, a);
            && (!a.Timeout? ==> t.largestSentAtLastCutback >= s.largestSentAtLastCutback)
            && (a.Lose? && CutsBack(s, a.packetNumber) ==> t.largestSentAtLastCutback == s.largestSentPacketNumber)
            && (a.Lose? && CutsBack(s, a.packetNumber) ==>
                  t.congestionWindow <= Max(s.congestionWindow, MinWindow(s)))
            && (a.Lose? && !CutsBack(s, a.packetNumber) ==> t == s)
  {
    hide AfterAck, IsCwndLimited, Beta, BetaLastMax;
  }

  lemma {:induction false} CutbackMarkerGrows(p: Params, run: seq<Action>, i: nat, j: nat)
    requires ParamsOk(p) && ValidRun(run) && i <= j <= |run|
    requires forall k :: i <= k < j ==> !run[k].Timeout?
    ensures Before(p, run, i).largestSentAtLastCutback <= Before(p, run, j).largestSentAtLastCutback
    decreases j - i
  {
    hide Before, Apply;
    if i < j {
      CutbackMarkerGrows(p, run, i, j - 1);
      BeforeStep(p, run, j - 1);
      CutbackStep(p, Before(p, run, j - 1), run[j - 1]);
    }
  }

  /**
   One reduction per loss event: with no timeout in between, a loss that reduces the window
   again is of a packet sent after the previous reduction.
   */
  lemma {:induction false} OneReductionPerLossEvent(p: Params, run: seq<Action>, i: nat, j: nat) returns (k: nat)
    requires ParamsOk(p) && ValidRun(run) && i < j < |run|
    requires CutsBackAt(p, run, i) && CutsBackAt(p, run, j)
    requires forall k :: i < k < j ==> !run[k].Timeout?
    ensures i < k < j && SentAt(run, k, run[j].packetNumber)
  {
    hide Before, Apply;
    BeforeStep(p, run, i);
    CutbackStep(p, Before(p, run, i), run[i]);
    CutbackMarkerGrows(p, run, i + 1, j);
    k :| SentAt(run, k, run[j].packetNumber) && k < j;
    if k < i {
      SentBelowLargest(run, k, i, run[j].packetNumber);
    }
  }

  lemma {:induction false} SentBelowLargest(run: seq<Action>, k: nat, i: nat, packetNumber: int)
    requires ValidRun(run) && k < i <= |run| && SentAt(run, k, packetNumber)
    ensures packetNumber <= LargestSent(run[..i])
  {
    ValidPrefix(run, i);
    LargestSentIsHighest(run[..i]);
    assert SentAt(run[..i], k, packetNumber);
  }

  // ---------- Acknowledgements ----------

  /** The sum of event time and minimum round trip does not go back from one ack to the next. */
  ghost predicate TimesForward(run: seq<Action>) {
    && (forall i :: 0 <= i < |run| && run[i].Ack? ==> run[i].eventTime > 0)
    && (forall i, j :: 0 <= i < j < |run| && run[i].Ack? && run[j].Ack? ==>
          run[i].eventTime + run[i].minRtt <= run[j].eventTime + run[j].minRtt)
  }

  /** That sum at the last ack. */
  function Latest(run: seq<Action>): nat {
    if run == [] then 0
    else if run[|run| - 1].Ack? then run[|run| - 1].eventTime + run[|run| - 1].minRtt
    else Latest(run[..|run| - 1])
  }

  /** A CUBIC epoch lies outside slow start, and covers the window. */
  ghost predicate EpochCovers(p: Params, s: Sender, latest: nat) {
    && (p.reno ==> s.cubic.epoch == Cubics.UNSET_TIME)
    && (s.cubic.epoch != Cubics.UNSET_TIME ==> s.slowStartThreshold <= s.congestionWindow)
    && Covered(p.mss, s.cubic, s.congestionWindow, latest)
  }

  lemma {:induction false} AckCovers(p: Params, s: Sender, ackedBytes: nat, priorInFlight: nat, eventTime: nat,
                                     minRtt: nat, latest: nat)
    requires ParamsOk(p) && Ready(s) && EpochCovers(p, s, latest)
    requires latest <= eventTime + minRtt && eventTime > 0
    ensures var t := WindowIncreased(p, s, ackedBytes, priorInFlight, eventTime, minRtt);
            EpochCovers(p, t, eventTime + minRtt) && t.congestionWindow >= s.congestionWindow
  {
    hide AfterAck, IsCwndLimited, Curve, Elapsed;
    CoveredLater(p.mss, s.cubic, s.congestionWindow, latest, eventTime + minRtt);
    AckNeverShrinks(p.mss, p.numConnections, s.cubic, ackedBytes, s.congestionWindow, minRtt, eventTime, latest);
  }

  /** Raising the datagram size lifts a window that is at the minimum, in an epoch that has begun there. */
  predicate Lifts(s: Sender, a: Action) {
    a.Raise? && a.bytes > 0 && s.congestionWindow == MinWindow(s) && s.cubic.epoch != Cubics.UNSET_TIME
  }

  /** One action keeps the window covered unless it lifts it, and only losses and timeouts shrink it. */
  lemma {:induction false} ActionCovers(p: Params, s: Sender, a: Action, latest: nat)
    requires ParamsOk(p) && Ready(s) && EpochCovers(p, s, latest)
    requires a.Ack? ==> latest <= a.eventTime + a.minRtt && a.eventTime > 0
    ensures !Lifts(s, a) ==> EpochCovers(p, Apply(p, s, a), if a.Ack? then a.eventTime + a.minRtt else latest)
    ensures !a.Lose? && !a.Timeout? ==> Apply(p, s, a).congestionWindow >= s.congestionWindow
  {
    hide WindowIncreased, Curve, Elapsed, Beta, BetaLastMax, Scaled;
    if a.Ack? {
      var noted := s.(largestAckedPacketNumber := Max(a.packetNumber, s.largestAckedPacketNumber));
      CoveredLater(p.mss, s.cubic, s.congestionWindow, latest, a.eventTime + a.minRtt);
      AckCovers(p, noted, a.ackedBytes, a.priorInFlight, a.eventTime, a.minRtt, latest);
    }
  }

  lemma {:induction false} LatestBelow(run: seq<Action>, i: nat)
    requires TimesForward(run) && i < |run| && run[i].Ack?
    ensures Latest(run[..i]) <= run[i].eventTime + run[i].minRtt
  {
    LatestIsAnAck(run[..i]);
  }

  lemma {:induction false} LatestIsAnAck(run: seq<Action>)
    ensures Latest(run) == 0
         || exists i :: 0 <= i < |run| && run[i].Ack? && Latest(run) == run[i].eventTime + run[i].minRtt
  {
    if run != [] {
      LatestIsAnAck(run[..|run| - 1]);
    }
  }

  /** In the CUBIC epoch that is open before action n, the window has been lifted. */
  ghost predicate LiftedInEpoch(p: Params, run: seq<Action>, n: nat)
    requires ParamsOk(p) && ValidRun(run) && n <= |run|
  {
    && n > 0 && Before(p, run, n).cubic.epoch != Cubics.UNSET_TIME
    && (Lifts(Before(p, run, n - 1), run[n - 1]) || LiftedInEpoch(p, run, n - 1))
  }

  lemma {:induction false} LiftedStep(p: Params, run: seq<Action>, n: nat)
    requires ParamsOk(p) && ValidRun(run) && 0 < n <= |run|
    ensures LiftedInEpoch(p, run, n) <==>
              && Before(p, run, n).cubic.epoch != Cubics.UNSET_TIME
              && (Lifts(Before(p, run, n - 1), run[n - 1]) || LiftedInEpoch(p, run, n - 1))
  {
    hide Before, Lifts, ValidRun;
  }

  lemma {:induction false} NoEpochCovers(p: Params, s: Sender, latest: nat)
    requires s.cubic.epoch == Cubics.UNSET_TIME
    ensures EpochCovers(p, s, latest)
  {
  }

  lemma {:induction false} RunCovers(p: Params, run: seq<Action>, i: nat)
    requires ParamsOk(p) && ValidRun(run) && TimesForward(run) && i <= |run|
    ensures EpochCovers(p, Before(p, run, i), Latest(run[..i])) || LiftedInEpoch(p, run, i)
  {
    if i == 0 {
      assert run[..0] == [];
    } else {
      hide Before, Apply, EpochCovers, Lifts, LiftedInEpoch, Invariant, Ready, ValidRun;
      RunCovers(p, run, i - 1);
      BeforeStep(p, run, i - 1);
      LiftedStep(p, run, i);
      assert run[..i][..i - 1] == run[..i - 1];
      if Before(p, run, i).cubic.epoch == Cubics.UNSET_TIME {
        NoEpochCovers(p, Before(p, run, i), Latest(run[..i]));
      } else if !LiftedInEpoch(p, run, i - 1) {
        if run[i - 1].Ack? {
          LatestBelow(run, i - 1);
        }
        ActionCovers(p, Before(p, run, i - 1), run[i - 1], Latest(run[..i - 1]));
      }
    }
  }

  /**
   The window never shrinks on an acknowledgement, in slow start, in Reno's and in CUBIC's
   congestion avoidance: only losses and timeouts reduce it. The one exception is a window that
   a raised datagram size has lifted above what CUBIC allows in the epoch that is still open.
   */
  lemma {:induction false} OnlyLossesAndTimeoutsShrinkWindow(p: Params, run: seq<Action>, i: nat)
    requires ParamsOk(p) && ValidRun(run) && TimesForward(run) && i < |run|
    requires Before(p, run, i + 1).congestionWindow < Before(p, run, i).congestionWindow
    ensures run[i].Lose? || run[i].Timeout? || (run[i].Ack? && LiftedInEpoch(p, run, i))
  {
    hide Before, Apply, EpochCovers, Lifts, LiftedInEpoch, Invariant, Ready, ValidRun;
    RunCovers(p, run, i);
    BeforeStep(p, run, i);
    if run[i].Ack? && !LiftedInEpoch(p, run, i) {
      LatestBelow(run, i);
      ActionCovers(p, Before(p, run, i), run[i], Latest(run[..i]));
    }
    OthersKeepWindow(p, Before(p, run, i), run[i]);
  }

  lemma {:induction false} OthersKeepWindow(p: Params, s: Sender, a: Action)
    requires ParamsOk(p) && Ready(s)
    ensures a.Send? || a.ExitSlowStart? || a.Raise? ==> Apply(p, s, a).congestionWindow >= s.congestionWindow
  {
    hide WindowIncreased, Beta, BetaLastMax, Scaled, AfterLoss;
  }

  // ---------- Acks that shrink the window ----------

  /** The ack reaches CUBIC: outside recovery and slow start, with the window in use and below its maximum. */
  predicate ReachesCubic(p: Params, s: Sender, packetNumber: nat, priorInFlight: nat) {
    && !p.reno && !InRecovery(s.(largestAckedPacketNumber := Max(packetNumber, s.largestAckedPacketNumber)))
    && IsCwndLimited(s, priorInFlight) && s.congestionWindow < MaxWindow(s) && !InSlowStart(s)
  }

  /**
   Exactly when a single ack shrinks the window, whatever the times: it reaches CUBIC, and CUBIC
   does not keep the window.
   */
  lemma {:induction false} AckShrinksIff(p: Params, s: Sender, packetNumber: nat, ackedBytes: nat, priorInFlight: nat,
                                         eventTime: nat, minRtt: nat)
    requires ParamsOk(p) && Ready(s)
    ensures var t := PacketAcked(p, s, packetNumber, ackedBytes, priorInFlight, eventTime, minRtt);
            t.congestionWindow < s.congestionWindow <==>
              ReachesCubic(p, s, packetNumber, priorInFlight)
              && !KeepsWindow(p.mss, p.numConnections, s.cubic, ackedBytes, s.congestionWindow, minRtt, eventTime)
  {
    hide AfterAck, KeepsWindow, IsCwndLimited;
    AckKeepsWindowIff(p.mss, p.numConnections, s.cubic, ackedBytes, s.congestionWindow, minRtt, eventTime);
    SameLimit(s, s.(largestAckedPacketNumber := Max(packetNumber, s.largestAckedPacketNumber)), priorInFlight);
  }

  lemma {:induction false} SameLimit(s: Sender, t: Sender, bytesInFlight: nat)
    requires t == s.(largestAckedPacketNumber := t.largestAckedPacketNumber)
    ensures IsCwndLimited(s, bytesInFlight) == IsCwndLimited(t, bytesInFlight)
  {
  }

  /** A full window of sends. */
  function Sends(n: nat): (run: seq<Action>)
    ensures |run| == n
  {
    seq(n, i requires 0 <= i < n => Send(i, true))
  }

  lemma {:induction false} SendsOnly(p: Params, n: nat)
    requires ParamsOk(p)
    ensures ValidRun(Sends(n)) && Run(p, Sends(n)) == Initial(p).(largestSentPacketNumber := n - 1)
  {
    if n > 0 {
      SendsOnly(p, n - 1);
      assert Sends(n)[..n - 1] == Sends(n - 1);
    }
  }

  lemma {:induction false} Extend(p: Params, run: seq<Action>, a: Action)
    requires ParamsOk(p) && ValidRun(run) && !a.Lose? && (a.Send? ==> a.packetNumber > LargestNumber(run))
    ensures ValidRun(run + [a]) && Run(p, run + [a]) == Apply(p, Run(p, run), a)
  {
    hide Apply, Invariant, Ready;
    var longer := run + [a];
    NumbersBelow(run);
    forall i | 0 <= i < |longer| && longer[i].Lose?
      ensures exists j :: SentAt(longer, j, longer[i].packetNumber) && j < i
    {
      var j :| SentAt(run, j, run[i].packetNumber) && j < i;
      assert SentAt(longer, j, longer[i].packetNumber);
    }
    assert longer[..|run|] == run;
  }

  /** The largest number sent, with or without data. */
  function LargestNumber(run: seq<Action>): int {
    if run == [] then INVALID_PACKET_NUMBER
    else
      var rest := LargestNumber(run[..|run| - 1]);
      if run[|run| - 1].Send? then Max(run[|run| - 1].packetNumber, rest) else rest
  }

  lemma {:induction false} NumbersBelow(run: seq<Action>)
    ensures forall i :: 0 <= i < |run| && run[i].Send? ==> run[i].packetNumber <= LargestNumber(run)
  {
    if run != [] {
      NumbersBelow(run[..|run| - 1]);
    }
  }

  const ETHERNET := Params(false, 1252, 1252, 1)

  /** The acks of the first two packets of a full window, a millisecond apart. */
  function TwoAcks(eventTime: nat): seq<Action> {
    Sends(32) + [ExitSlowStart(true)] + [Ack(0, 1252, 40_064, eventTime, 1_000_000_000)]
    + [Ack(1, 1252, 38_812, eventTime + 1_000_000, 20_000_000)]
  }

  /**
   A run whose last ack shrinks the window: a full initial window is sent, slow start is left on
   advice, and the first two packets are acknowledged a millisecond apart, while the minimum
   round trip falls from a second to 20 milliseconds. Event times go forward; their sums with
   the minimum round trip do not.
   */
  lemma {:induction false} AckShrinksWindow(eventTime: nat)
    requires eventTime > 0
    ensures var run := TwoAcks(eventTime);
            && ValidRun(run) && |run| == 35
            && Run(ETHERNET, run).congestionWindow < Before(ETHERNET, run, 34).congestionWindow
  {
    hide AfterAck, Run, ValidRun, Sends;
    SendsOnly(ETHERNET, 32);
    Extend(ETHERNET, Sends(32), ExitSlowStart(true));
    var left := Sends(32) + [ExitSlowStart(true)];
    Extend(ETHERNET, left, Ack(0, 1252, 40_064, eventTime, 1_000_000_000));
    var first := left + [Ack(0, 1252, 40_064, eventTime, 1_000_000_000)];
    Extend(ETHERNET, first, Ack(1, 1252, 38_812, eventTime + 1_000_000, 20_000_000));
    ShrinksWhenRttDrops(Run(ETHERNET, left).cubic, eventTime);
    assert TwoAcks(eventTime)[..34] == first;
    SamePrefix(ETHERNET, TwoAcks(eventTime), first);
  }

  /** A sender that has timed out and left slow start at its minimum, and the ack of one byte that starts an epoch. */
  function MinimumEpoch(eventTime: nat): seq<Action> {
    Sends(2) + [Timeout(true)] + [ExitSlowStart(true)] + [Ack(0, 1, 2504, eventTime, 20_000_000)]
  }

  lemma {:induction false} AfterMinimumEpoch(eventTime: nat)
    requires eventTime > 0
    ensures ValidRun(MinimumEpoch(eventTime))
    ensures var s := Run(ETHERNET, MinimumEpoch(eventTime));
            && s.congestionWindow == 2504 && s.slowStartThreshold == 2504 && s.maxDatagramSize == 1252
            && s.largestSentAtLastCutback == INVALID_PACKET_NUMBER
            && s.cubic == AfterAck(1252, 1, Cubics.CLEARED, 1, 2504, 20_000_000, eventTime).0
  {
    hide AfterAck, Run, ValidRun, Sends;
    SendsOnly(ETHERNET, 2);
    var timedOut := Sends(2) + [Timeout(true)];
    var left := timedOut + [ExitSlowStart(true)];
    Extend(ETHERNET, Sends(2), Timeout(true));
    Extend(ETHERNET, timedOut, ExitSlowStart(true));
    UncoveredWindowFalls(eventTime);
    Extend(ETHERNET, left, Ack(0, 1, 2504, eventTime, 20_000_000));
  }

  /**
   The exception is real: raising the datagram size to 1500 bytes lifts that window to 3000, and
   the next ack takes it back to 2504, below the new minimum.
   */
  lemma {:induction false} AckShrinksLiftedWindow(eventTime: nat)
    requires eventTime > 0
    ensures var run := MinimumEpoch(eventTime) + [Raise(248)] + [Ack(1, 1, 3000, eventTime, 20_000_000)];
            && ValidRun(run) && TimesForward(run) && |run| == 7
            && Before(ETHERNET, run, 6).congestionWindow == 3000 && Run(ETHERNET, run).congestionWindow == 2504
  {
    hide AfterAck, Run, ValidRun, MinimumEpoch;
    var raised := MinimumEpoch(eventTime) + [Raise(248)];
    var run := raised + [Ack(1, 1, 3000, eventTime, 20_000_000)];
    AfterMinimumEpoch(eventTime);
    Extend(ETHERNET, MinimumEpoch(eventTime), Raise(248));
    UncoveredWindowFalls(eventTime);
    Extend(ETHERNET, raised, Ack(1, 1, 3000, eventTime, 20_000_000));
    SamePrefix(ETHERNET, run, raised);
    TimesOfMinimumEpoch(eventTime);
  }

  lemma {:induction false} TimesOfMinimumEpoch(eventTime: nat)
    requires eventTime > 0
    ensures |MinimumEpoch(eventTime)| == 5
    ensures TimesForward(MinimumEpoch(eventTime) + [Raise(248)] + [Ack(1, 1, 3000, eventTime, 20_000_000)])
  {
  }

  lemma {:induction false} SamePrefix(p: Params, run: seq<Action>, prefix: seq<Action>)
    requires ParamsOk(p) && ValidRun(run) && prefix <= run
    ensures ValidRun(prefix) && Before(p, run, |prefix|) == Run(p, prefix)
  {
    hide Run, ValidRun;
    ValidPrefix(run, |prefix|);
    assert run[..|prefix|] == prefix;
  }
}
