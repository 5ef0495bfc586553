/**
 The token-bucket pacer of hysteria/congestion/pacer.go. Times are nanoseconds, and 0 is the
 unset time; the bandwidth, in bytes per second, is what the sender's callback returns.
 */
module Pacers {
  import opened Arithmetic

  const SECOND := 1_000_000_000
  const UNSET_TIME := 0
  const MAX_BURST_PACKETS := 10
  const MAX_BURST_PACING_DELAY := 4_000_000
  const INIT_MAX_DATAGRAM_SIZE := 1252
  const OVERFLOW_BUDGET := 0x3fff_ffff_ffff_ffff  // 2^62 - 1

  datatype State = State(budgetAtLastSent: nat, maxDatagramSize: nat, lastSentTime: nat)

  const INITIAL := State(MAX_BURST_PACKETS * INIT_MAX_DATAGRAM_SIZE, INIT_MAX_DATAGRAM_SIZE, UNSET_TIME)

  /** The least whole number of bytes that covers ten datagrams, and four milliseconds of bandwidth rounded down. */
  function MaxBurst(maxDatagramSize: nat, bandwidth: nat): (burst: nat)
    ensures burst >= 10 * maxDatagramSize && 250 * burst + 250 > bandwidth
    ensures burst == 10 * maxDatagramSize || 250 * burst <= bandwidth
  {
    Max(MAX_BURST_PACING_DELAY * bandwidth / SECOND, MAX_BURST_PACKETS * maxDatagramSize)
  }

  /** The tokens at this time; a negative count is taken for an overflow. */
  function Budget(s: State, bandwidth: nat, now: nat): (budget: nat)
    ensures budget <= MaxBurst(s.maxDatagramSize, bandwidth)
  {
    if s.lastSentTime == UNSET_TIME then MaxBurst(s.maxDatagramSize, bandwidth)
    else
      var budget := s.budgetAtLastSent + Quo(bandwidth * (now - s.lastSentTime), SECOND);
      Min(MaxBurst(s.maxDatagramSize, bandwidth), if budget < 0 then OVERFLOW_BUDGET else budget)
  }

  function Sent(s: State, bandwidth: nat, sendTime: nat, size: nat): State {
    var budget := Budget(s, bandwidth, sendTime);
    s.(budgetAtLastSent := if size > budget then 0 else budget - size, lastSentTime := sendTime)
  }

  /** The wait after the last send, in nanoseconds, rounded up. */
  function Wait(s: State, bandwidth: nat): nat
    requires bandwidth > 0 && s.budgetAtLastSent < s.maxDatagramSize
  {
    var diff := SECOND * (s.maxDatagramSize - s.budgetAtLastSent);
    diff / bandwidth + if diff % bandwidth > 0 then 1 else 0
  }

  /** When the next packet may be sent: the unset time for at once. */
  function NextSend(s: State, bandwidth: nat, minDelay: nat): nat
    requires bandwidth > 0 || s.budgetAtLastSent >= s.maxDatagramSize
  {
    if s.budgetAtLastSent >= s.maxDatagramSize then UNSET_TIME
    else s.lastSentTime + Max(minDelay, Wait(s, bandwidth))
  }

  class Pacer {
    var budgetAtLastSent: nat
    var maxDatagramSize: nat
    var lastSentTime: nat

    ghost function Model(): State
      reads this
    {
      State(budgetAtLastSent, maxDatagramSize, lastSentTime)
    }

    constructor ()
      ensures Model() == INITIAL
    {
      budgetAtLastSent := MAX_BURST_PACKETS * INIT_MAX_DATAGRAM_SIZE;
      maxDatagramSize := INIT_MAX_DATAGRAM_SIZE;
      lastSentTime := UNSET_TIME;
    }

    function BudgetAt(bandwidth: nat, now: nat): (budget: nat)
      reads this
      ensures budget == Budget(Model(), bandwidth, now)
    {
      if lastSentTime == UNSET_TIME then MaxBurst(maxDatagramSize, bandwidth)
      else
        var tokens := budgetAtLastSent + Quo(bandwidth * (now - lastSentTime), SECOND);
        Min(MaxBurst(maxDatagramSize, bandwidth), if tokens < 0 then OVERFLOW_BUDGET else tokens)
    }

    method SentPacket(bandwidth: nat, sendTime: nat, size: nat)
      modifies this
      ensures Model() == Sent(old(Model()), bandwidth, sendTime, size)
    {
      var budget := BudgetAt(bandwidth, sendTime);
      if size > budget {
        budgetAtLastSent := 0;
      } else {
        budgetAtLastSent := budget - size;
      }
      lastSentTime := sendTime;
    }

    method TimeUntilSend(bandwidth: nat, minDelay: nat) returns (time: nat)
      requires bandwidth > 0 || budgetAtLastSent >= maxDatagramSize
      ensures time == NextSend(Model(), bandwidth, minDelay)
    {
      if budgetAtLastSent >= maxDatagramSize {
        return UNSET_TIME;
      }
      var diff := SECOND * (maxDatagramSize - budgetAtLastSent);
      var d := diff / bandwidth;
      if diff % bandwidth > 0 {
        d := d + 1;
      }
      return lastSentTime + Max(minDelay, d);
    }

    method SetMaxDatagramSize(size: nat)
      modifies `maxDatagramSize
      ensures Model() == old(Model()).(maxDatagramSize := size)
    {
      maxDatagramSize := size;
    }
  }

  // ---------- The wait ----------

  lemma {:induction false} CeilingIsLeast(diff: nat, rate: nat, x: nat)
    requires rate > 0
    ensures rate * x >= diff <==> x >= diff / rate + if diff % rate > 0 then 1 else 0
  {
    CeilingByParts(diff / rate, diff % rate, rate, x);
    assert diff == rate * (diff / rate) + diff % rate;
  }

  lemma {:induction false} CeilingByParts(q: nat, r: nat, rate: nat, x: nat)
    requires r < rate
    ensures rate * x >= rate * q + r <==> x >= q + if r > 0 then 1 else 0
  {
    if x > q {
      MulMonotone(q + 1, x, rate);
    } else if x < q {
      MulMonotone(x + 1, q, rate);
    }
  }

  /** The budget, up to the maximum burst, is what was left and what the time since has earned in whole bytes. */
  lemma {:induction false} BudgetIsEarned(s: State, bandwidth: nat, now: nat, bytes: nat)
    requires now >= s.lastSentTime
    ensures Budget(s, bandwidth, now) >= bytes
       <==> && MaxBurst(s.maxDatagramSize, bandwidth) >= bytes
            && (s.lastSentTime == UNSET_TIME
                || bandwidth * (now - s.lastSentTime) >= SECOND * (bytes - s.budgetAtLastSent))
  {
    hide MaxBurst;
    var earned := bandwidth * (now - s.lastSentTime);
    MulMonotone(0, now - s.lastSentTime, bandwidth);
    if bytes >= s.budgetAtLastSent {
      QuotientReaches(earned, SECOND, bytes - s.budgetAtLastSent);
    }
  }

  /** The budget covers a datagram exactly from the rounded-up wait on: the wait is sound and tight. */
  lemma {:induction false} WaitIsExact(s: State, bandwidth: nat, now: nat)
    requires bandwidth > 0 && s.budgetAtLastSent < s.maxDatagramSize
    requires s.lastSentTime != UNSET_TIME && now >= s.lastSentTime
    ensures Budget(s, bandwidth, now) >= s.maxDatagramSize <==> now - s.lastSentTime >= Wait(s, bandwidth)
  {
    var x, missing := now - s.lastSentTime, s.maxDatagramSize - s.budgetAtLastSent;
    CeilingIsLeast(SECOND * missing, bandwidth, x);
    QuotientReaches(bandwidth * x, SECOND, missing);
  }

  /** A clock that has gone back so far that the count of tokens is negative gives a full burst. */
  lemma {:induction false} NegativeBudgetIsFull(s: State, bandwidth: nat, now: nat)
    requires s.lastSentTime != UNSET_TIME && now < s.lastSentTime
    requires bandwidth * (s.lastSentTime - now) >= SECOND * (s.budgetAtLastSent + 1)
    requires MaxBurst(s.maxDatagramSize, bandwidth) < 0x4000_0000_0000_0000
    ensures Budget(s, bandwidth, now) == MaxBurst(s.maxDatagramSize, bandwidth)
  {
    hide MaxBurst;
    var x := bandwidth * (s.lastSentTime - now);
    assert bandwidth * (now - s.lastSentTime) == -x;
    QuotientReaches(x, SECOND, s.budgetAtLastSent + 1);
  }

  /** When the budget is short, the announced time is the first at which it covers a datagram, after the least delay. */
  lemma {:induction false} NextSendIsFirst(s: State, bandwidth: nat, minDelay: nat, now: nat)
    requires bandwidth > 0 && s.budgetAtLastSent < s.maxDatagramSize
    requires s.lastSentTime != UNSET_TIME && now >= s.lastSentTime
    ensures now >= NextSend(s, bandwidth, minDelay)
       <==> Budget(s, bandwidth, now) >= s.maxDatagramSize && now >= s.lastSentTime + minDelay
  {
    hide Budget, Wait;
    WaitIsExact(s, bandwidth, now);
  }

  /** At the announced time, and ever after, the budget covers a datagram. */
  lemma {:induction false} NextSendHasBudget(s: State, bandwidth: nat, minDelay: nat, now: nat)
    requires bandwidth > 0 || s.budgetAtLastSent >= s.maxDatagramSize
    requires now >= s.lastSentTime && now >= NextSend(s, bandwidth, minDelay)
    ensures Budget(s, bandwidth, now) >= s.maxDatagramSize
  {
    if s.lastSentTime != UNSET_TIME {
      if s.budgetAtLastSent < s.maxDatagramSize {
        WaitIsExact(s, bandwidth, now);
      } else {
        MulMonotone(0, now - s.lastSentTime, bandwidth);
      }
    }
  }

  // ---------- The long-run rate ----------

  /** One send: its time and size, the bandwidth the callback returned, and the datagram size in force. */
  datatype Send = Send(time: nat, size: nat, bandwidth: nat, maxDatagramSize: nat)

  function Run(s: State, sends: seq<Send>): State {
    if sends == [] then s
    else
      var last := sends[|sends| - 1];
      Sent(Resized(Run(s, sends[..|sends| - 1]), last), last.bandwidth, last.time, last.size)
  }

  /** The pacer as a send finds it, after any change of the datagram size. */
  function Resized(s: State, send: Send): State {
    s.(maxDatagramSize := send.maxDatagramSize)
  }

  /** Times are set and do not go back. */
  ghost predicate Chronological(s: State, sends: seq<Send>) {
    && (forall i :: 0 <= i < |sends| ==> UNSET_TIME < sends[i].time && s.lastSentTime <= sends[i].time)
    && (forall i, j :: 0 <= i < j < |sends| ==> sends[i].time <= sends[j].time)
  }

  /** Every send finds a budget of a full datagram, and carries no more than one. */
  ghost predicate Guarded(s: State, sends: seq<Send>) {
    forall i :: 0 <= i < |sends| ==>
      sends[i].size <= sends[i].maxDatagramSize
                    <= Budget(Resized(Run(s, sends[..i]), sends[i]), sends[i].bandwidth, sends[i].time)
  }

  /** The bytes of sends i to j, inclusive. */
  function Bytes(sends: seq<Send>, i: nat, j: nat): nat
    requires i <= j < |sends|
  {
    if i == j then sends[j].size else Bytes(sends, i, j - 1) + sends[j].size
  }

  /** Bandwidth times elapsed time between sends i and j, in billionths of a byte. */
  function Allowance(sends: seq<Send>, i: nat, j: nat): int
    requires i <= j < |sends|
  {
    if i == j then 0 else Allowance(sends, i, j - 1) + sends[j].bandwidth * (sends[j].time - sends[j - 1].time)
  }

  lemma {:induction false} RunFacts(s: State, sends: seq<Send>)
    requires Chronological(s, sends) && sends != []
    ensures Run(s, sends).lastSentTime == sends[|sends| - 1].time
  {
    if |sends| > 1 {
      RunFacts(s, sends[..|sends| - 1]);
    }
  }

  lemma {:induction false} SendTakesTokens(s: State, last: Send)
    requires last.size <= Budget(s, last.bandwidth, last.time)
    ensures Sent(s, last.bandwidth, last.time, last.size).budgetAtLastSent + last.size
        == Budget(s, last.bandwidth, last.time)
  {
  }

  /** A guarded send takes its bytes out of the tokens that the time since the last send has added. */
  lemma {:induction false} GuardedSendSpends(s: State, last: Send)
    requires s.lastSentTime != UNSET_TIME && last.time >= s.lastSentTime
    requires last.size <= Budget(s, last.bandwidth, last.time)
    ensures SECOND * (Sent(s, last.bandwidth, last.time, last.size).budgetAtLastSent + last.size)
         <= SECOND * s.budgetAtLastSent + last.bandwidth * (last.time - s.lastSentTime)
  {
    var x := last.bandwidth * (last.time - s.lastSentTime);
    MulMonotone(0, last.time - s.lastSentTime, last.bandwidth);
    assert x == SECOND * (x / SECOND) + x % SECOND;
  }

  /** Every send of a guarded run takes its bytes out of the tokens it finds. */
  lemma {:induction false} SendIsEarned(s: State, sends: seq<Send>, j: nat)
    requires Chronological(s, sends) && Guarded(s, sends) && j < |sends|
    ensures var tokens := Run(s, sends[..j + 1]).budgetAtLastSent + sends[j].size;
            && tokens <= MaxBurst(sends[j].maxDatagramSize, sends[j].bandwidth)
            && (j > 0 ==> SECOND * tokens <= SECOND * Run(s, sends[..j]).budgetAtLastSent
                                             + sends[j].bandwidth * (sends[j].time - sends[j - 1].time))
  {
    hide Budget, Sent, MaxBurst;
    assert sends[..j + 1][..j] == sends[..j];
    var before, last := Resized(Run(s, sends[..j]), sends[j]), sends[j];
    SendTakesTokens(before, last);
    if j > 0 {
      RunFacts(s, sends[..j]);
      GuardedSendSpends(before, last);
    }
  }

  /** The bytes of any stretch of guarded sends, and the tokens left after it, were earned. */
  lemma {:induction false} StretchIsEarned(s: State, sends: seq<Send>, i: nat, j: nat)
    requires Chronological(s, sends) && Guarded(s, sends) && i <= j < |sends|
    ensures SECOND * (Bytes(sends, i, j) + Run(s, sends[..j + 1]).budgetAtLastSent)
         <= SECOND * MaxBurst(sends[i].maxDatagramSize, sends[i].bandwidth) + Allowance(sends, i, j)
    decreases j
  {
    hide MaxBurst, Run, Chronological, Guarded;
    SendIsEarned(s, sends, j);
    if i < j {
      StretchIsEarned(s, sends, i, j - 1);
    }
  }

  /** A further send that finds its budget keeps the sends guarded. */
  lemma {:induction false} GuardedExtends(s: State, sends: seq<Send>, last: Send)
    requires Guarded(s, sends)
    requires last.size <= last.maxDatagramSize <= Budget(Resized(Run(s, sends), last), last.bandwidth, last.time)
    ensures Guarded(s, sends + [last])
  {
    hide Budget, Run, Resized;
    var longer := sends + [last];
    forall i | 0 <= i < |longer|
      ensures longer[i].size <= longer[i].maxDatagramSize
      ensures longer[i].maxDatagramSize
          <= Budget(Resized(Run(s, longer[..i]), longer[i]), longer[i].bandwidth, longer[i].time)
    {
      assert longer[..i] == sends[..i];
      assert sends[..|sends|] == sends;
    }
  }

  /** Bandwidths up to a bound earn at most that bound over time. */
  lemma {:induction false} AllowanceBound(sends: seq<Send>, bandwidth: nat, i: nat, j: nat)
    requires i <= j < |sends| && forall k, l :: 0 <= k < l < |sends| ==> sends[k].time <= sends[l].time
    requires forall k :: 0 <= k < |sends| ==> sends[k].bandwidth <= bandwidth
    ensures Allowance(sends, i, j) <= bandwidth * (sends[j].time - sends[i].time)
  {
    if i < j {
      AllowanceBound(sends, bandwidth, i, j - 1);
      MulMonotone(sends[j].bandwidth, bandwidth, sends[j].time - sends[j - 1].time);
    }
  }

  /**
   The long-run rate: for a bandwidth that stays at or below a maximum, the bytes sent between
   any two sends, inclusive, are at most the maximum burst at the first plus that bandwidth times
   the elapsed time, for all the roundings and changes of the datagram size on the way.
   */
  lemma {:induction false} LongRunRate(s: State, sends: seq<Send>, bandwidth: nat, i: nat, j: nat)
    requires Chronological(s, sends) && Guarded(s, sends) && i <= j < |sends|
    requires forall k :: 0 <= k < |sends| ==> sends[k].bandwidth <= bandwidth
    ensures SECOND * Bytes(sends, i, j)
         <= SECOND * MaxBurst(sends[i].maxDatagramSize, bandwidth) + bandwidth * (sends[j].time - sends[i].time)
  {
    StretchIsEarned(s, sends, i, j);
    AllowanceBound(sends, bandwidth, i, j);
    DivMonotone(MAX_BURST_PACING_DELAY * sends[i].bandwidth, MAX_BURST_PACING_DELAY * bandwidth, SECOND);
  }

  /** The guard is needed: an unguarded send empties the bucket and is not paid back. */
  lemma {:induction false} UnguardedSendIsForgiven(s: State, bandwidth: nat, time: nat, size: nat)
    requires size > Budget(s, bandwidth, time)
    ensures Sent(s, bandwidth, time, size) == Sent(s, bandwidth, time, Budget(s, bandwidth, time))
  {
  }
}
