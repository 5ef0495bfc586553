/**
 The three-sample windowed maximum filter of congestion_meta2/windowed_filter.go, with the
 maximum comparator. Samples and times are unsigned, and the zero sample means "not set".
 */
module WindowedFilters {
  datatype Entry = Entry(sample: nat, time: nat)

  const UNSET := Entry(0, 0)

  /** The best, second best and third best estimates. */
  type Estimates = e: seq<Entry> | |e| == 3 witness [UNSET, UNSET, UNSET]

  const CLEARED: Estimates := [UNSET, UNSET, UNSET]

  /** The comparator: positive, zero or negative as a is better than, equal to or worse than b. */
  function MaxFilter(a: nat, b: nat): int {
    if a > b then 1 else if a < b then -1 else 0
  }

  // ---------- One update ----------

  /** The estimates after the new sample has displaced the second and third best ones it beats. */
  function Displaced(e: Estimates, new_: Entry): Estimates {
    if new_.sample >= e[1].sample then [e[0], new_, new_]
    else if new_.sample >= e[2].sample then [e[0], e[1], new_]
    else e
  }

  /** The estimates once the best one has expired: the others move up, twice if need be. */
  function Promoted(w: nat, e: Estimates, new_: Entry): Estimates {
    if new_.time - e[1].time > w then [e[2], new_, new_] else [e[1], e[2], new_]
  }

  function Updated(w: nat, e: Estimates, new_: Entry): Estimates {
    if e[0].sample == 0 || new_.sample >= e[0].sample || new_.time - e[2].time > w then [new_, new_, new_]
    else
      var d := Displaced(e, new_);
      if new_.time - d[0].time > w then Promoted(w, d, new_)
      else if d[1].sample == d[0].sample && new_.time - d[1].time > w / 4 then [d[0], new_, new_]
      else if d[2].sample == d[1].sample && new_.time - d[2].time > w / 2 then [d[0], d[1], new_]
      else d
  }

  class WindowedFilter {
    var windowLength: nat
    var estimates: array<Entry>

    ghost predicate Valid()
      reads this
    {
      estimates.Length == 3
    }

    ghost function State(): (e: Estimates)
      requires Valid()
      reads this, estimates
    {
      estimates[..]
    }

    constructor (windowLength: nat)
      ensures Valid() && fresh(estimates)
      ensures State() == CLEARED && this.windowLength == windowLength
    {
      this.windowLength := windowLength;
      estimates := new Entry[3](_ => UNSET);
    }

    method SetWindowLength(windowLength: nat)
      modifies `windowLength
      ensures this.windowLength == windowLength
    {
      this.windowLength := windowLength;
    }

    function GetBest(): (best: nat)
      requires Valid()
      reads this, estimates
      ensures best == State()[0].sample
    {
      estimates[0].sample
    }

    method Update(newSample: nat, newTime: nat)
      requires Valid()
      modifies estimates
      ensures State() == Updated(windowLength, old(State()), Entry(newSample, newTime))
    {
      var new_ := Entry(newSample, newTime);
      if MaxFilter(estimates[0].sample, 0) == 0
         || MaxFilter(newSample, estimates[0].sample) >= 0
         || newTime - estimates[2].time > windowLength {
        Reset(newSample, newTime);
        return;
      }
      if MaxFilter(newSample, estimates[1].sample) >= 0 {
        estimates[1] := new_;
        estimates[2] := estimates[1];
      } else if MaxFilter(newSample, estimates[2].sample) >= 0 {
        estimates[2] := new_;
      }
      assert State() == Displaced(old(State()), new_);
      if newTime - estimates[0].time > windowLength {
        estimates[0] := estimates[1];
        estimates[1] := estimates[2];
        estimates[2] := new_;
        if newTime - estimates[0].time > windowLength {
          estimates[0] := estimates[1];
          estimates[1] := estimates[2];
        }
        return;
      }
      if MaxFilter(estimates[1].sample, estimates[0].sample) == 0
         && newTime - estimates[1].time > windowLength / 4 {
        estimates[1] := new_;
        estimates[2] := estimates[1];
        return;
      }
      if MaxFilter(estimates[2].sample, estimates[1].sample) == 0
         && newTime - estimates[2].time > windowLength / 2 {
        estimates[2] := new_;
      }
    }

    method Reset(newSample: nat, newTime: nat)
      requires Valid()
      modifies estimates
      ensures State() == [Entry(newSample, newTime), Entry(newSample, newTime), Entry(newSample, newTime)]
    {
      estimates[2] := Entry(newSample, newTime);
      estimates[1] := estimates[2];
      estimates[0] := estimates[1];
    }

    method Clear()
      modifies this
      ensures Valid() && fresh(estimates)
      ensures State() == CLEARED && windowLength == old(windowLength)
    {
      estimates := new Entry[3](_ => UNSET);
    }
  }

  // ---------- Histories ----------

  /** Times do not go back. */
  ghost predicate Chronological(h: seq<Entry>) {
    forall i, j :: 0 <= i < j < |h| ==> h[i].time <= h[j].time
  }

  function Run(w: nat, h: seq<Entry>): Estimates {
    if h == [] then CLEARED else Updated(w, Run(w, h[..|h| - 1]), h[|h| - 1])
  }

  /** Record i of the history is at least as large as every later one. */
  ghost predicate TopsSuffix(h: seq<Entry>, i: nat) {
    i < |h| && forall j :: i <= j < |h| ==> h[j].sample <= h[i].sample
  }

  /** The estimates are records i, j and k of the history, in that order, each topping its suffix. */
  ghost predicate SuffixMaximaAt(h: seq<Entry>, e: Estimates, i: nat, j: nat, k: nat) {
    && i <= j <= k
    && TopsSuffix(h, i) && TopsSuffix(h, j) && TopsSuffix(h, k)
    && e == [h[i], h[j], h[k]]
  }

  ghost predicate SuffixMaxima(h: seq<Entry>, e: Estimates) {
    exists i: nat, j: nat, k: nat :: SuffixMaximaAt(h, e, i, j, k)
  }

  lemma {:induction false} ExtendSuffix(h: seq<Entry>, new_: Entry, i: nat)
    requires TopsSuffix(h, i) && new_.sample <= h[i].sample
    ensures TopsSuffix(h + [new_], i) && (h + [new_])[i] == h[i]
  {
  }

  /** One update keeps the estimates suffix maxima, and leaves the best one inside the window. */
  lemma {:induction false} UpdateKeepsSuffixMaxima(w: nat, h: seq<Entry>, e: Estimates, new_: Entry)
    requires h == [] ==> e == CLEARED
    requires h != [] ==> SuffixMaxima(h, e)
    requires forall i :: 0 <= i < |h| ==> h[i].time <= new_.time
    ensures SuffixMaxima(h + [new_], Updated(w, e, new_))
    ensures new_.time - Updated(w, e, new_)[0].time <= w
  {
    var g, n := h + [new_], |h|;
    assert TopsSuffix(g, n) && g[n] == new_;
    var u := Updated(w, e, new_);
    if u == [new_, new_, new_] {
      assert SuffixMaximaAt(g, u, n, n, n);
    } else {
      var i: nat, j: nat, k: nat :| SuffixMaximaAt(h, e, i, j, k);
      ExtendSuffix(h, new_, i);
      var j' := if new_.sample >= e[1].sample then n else j;
      var k' := if new_.sample >= e[2].sample || j' == n then n else k;
      assert TopsSuffix(g, j') && TopsSuffix(g, k');
      var d := Displaced(e, new_);
      assert SuffixMaximaAt(g, d, i, j', k');
      if new_.time - d[0].time > w {
        assert SuffixMaximaAt(g, u, j', k', n) || SuffixMaximaAt(g, u, k', n, n);
      } else {
        assert SuffixMaximaAt(g, u, i, n, n) || SuffixMaximaAt(g, u, i, j', n) || SuffixMaximaAt(g, u, i, j', k');
      }
    }
  }

  /** After any history the estimates are suffix maxima of it, and the best one is in the window. */
  lemma {:induction false} EstimatesAreSuffixMaxima(w: nat, h: seq<Entry>)
    requires h != [] && Chronological(h)
    ensures SuffixMaxima(h, Run(w, h))
    ensures h[|h| - 1].time - Run(w, h)[0].time <= w
  {
    hide Updated, SuffixMaxima;
    var init := h[..|h| - 1];
    if init != [] {
      EstimatesAreSuffixMaxima(w, init);
    }
    UpdateKeepsSuffixMaxima(w, init, Run(w, init), h[|h| - 1]);
    assert h == init + [h[|h| - 1]];
  }

  /** The best estimate is at least the newest sample, and is a sample of the current window. */
  lemma {:induction false} BestBounds(w: nat, h: seq<Entry>)
    requires h != [] && Chronological(h)
    ensures Run(w, h)[0].sample >= h[|h| - 1].sample
    ensures exists i :: 0 <= i < |h| && h[|h| - 1].time - h[i].time <= w && h[i] == Run(w, h)[0]
  {
    EstimatesAreSuffixMaxima(w, h);
  }

  /** An update at a time still within the window of `since` loses no value the filter has reported. */
  lemma {:induction false} UpdateRetains(w: nat, e: Estimates, new_: Entry, peak: nat, since: nat)
    requires e[0].sample >= peak && since <= e[0].time <= e[1].time <= e[2].time <= new_.time
    requires new_.time - since <= w
    ensures Updated(w, e, new_)[0].sample >= peak && since <= Updated(w, e, new_)[0].time
  {
  }

  lemma {:induction false} NewBestResets(w: nat, e: Estimates, new_: Entry)
    requires new_.sample >= e[0].sample
    ensures Updated(w, e, new_) == [new_, new_, new_]
  {
  }

  lemma {:induction false} SuffixMaximaInOrder(h: seq<Entry>, e: Estimates)
    requires Chronological(h) && SuffixMaxima(h, e)
    ensures e[0].time <= e[1].time <= e[2].time <= h[|h| - 1].time
    ensures e[0].sample >= e[1].sample >= e[2].sample
  {
  }

  /**
   A sample that was a new best when it arrived bounds the filter from below for a whole
   window: it is under-reported only after it has expired.
   */
  lemma {:induction false} PeakIsRetained(w: nat, h: seq<Entry>, i: nat)
    requires Chronological(h) && i < |h|
    requires h[i].sample >= Run(w, h[..i])[0].sample
    requires h[|h| - 1].time - h[i].time <= w
    ensures Run(w, h)[0].sample >= h[i].sample && h[i].time <= Run(w, h)[0].time
    decreases |h|
  {
    hide Updated, TopsSuffix;
    var init, new_ := h[..|h| - 1], h[|h| - 1];
    if i == |h| - 1 {
      NewBestResets(w, Run(w, init), new_);
    } else {
      assert init[..i] == h[..i];
      assert h[i].time <= h[|h| - 2].time <= new_.time;
      PeakIsRetained(w, init, i);
      EstimatesAreSuffixMaxima(w, init);
      SuffixMaximaInOrder(init, Run(w, init));
      UpdateRetains(w, Run(w, init), new_, h[i].sample, h[i].time);
    }
  }

  // ---------- The runners-up ----------

  /**
   The best estimate makes up for the peak, or will when it expires: it is as large and as recent,
   or it is the top, and the second best is as large and as recent.
   */
  ghost predicate Holds(e: Estimates, top: Entry, peak: Entry) {
    e[0].sample >= peak.sample
    && (e[0].time >= peak.time
        || (e[0] == top && peak.sample <= e[1].sample < top.sample && e[1].time >= peak.time))
  }

  lemma {:induction false} UpdateHolds(w: nat, e: Estimates, new_: Entry, top: Entry, peak: Entry)
    requires Holds(e, top, peak) && e[0].time <= e[1].time <= e[2].time <= new_.time
    requires new_.sample <= peak.sample < top.sample && peak.time <= new_.time <= peak.time + w
    ensures Holds(Updated(w, e, new_), top, peak)
  {
  }

  /** Record i is a new best on arrival, and every later record is smaller. */
  ghost predicate LastPeak(w: nat, h: seq<Entry>, i: nat) {
    && i < |h| && h[i].sample >= Run(w, h[..i])[0].sample
    && forall k :: i < k < |h| ==> h[k].sample < h[i].sample
  }

  /** Record j, more than this long after record i, is at least every record that long after it. */
  ghost predicate TopsAfter(h: seq<Entry>, i: nat, delay: nat, j: nat) {
    && i < j < |h| && h[j].time - h[i].time > delay
    && forall k :: i < k < |h| && h[k].time - h[i].time > delay ==> h[k].sample <= h[j].sample
  }

  /** Before the runner-up arrives, the second best is the peak itself or no larger than the runner-up. */
  ghost predicate Awaits(w: nat, e: Estimates, top: Entry, runnerUp: Entry, now: nat) {
    || (e[0].sample <= runnerUp.sample && now - top.time > w / 4)
    || e == [top, top, top]
    || (e[0] == top && e[1].sample <= runnerUp.sample && now - top.time > w / 4)
  }

  lemma {:induction false} UpdateAwaits(w: nat, e: Estimates, new_: Entry, top: Entry, runnerUp: Entry, now: nat)
    requires Awaits(w, e, top, runnerUp, now) && top.time <= now <= new_.time
    requires e[0].sample >= e[1].sample >= e[2].sample
    requires new_.sample < top.sample && runnerUp.sample < top.sample
    requires new_.time - top.time > w / 4 ==> new_.sample <= runnerUp.sample
    ensures Awaits(w, Updated(w, e, new_), top, runnerUp, new_.time)
  {
  }

  lemma {:induction false} RunnerUpArrives(w: nat, e: Estimates, top: Entry, runnerUp: Entry, now: nat)
    requires Awaits(w, e, top, runnerUp, now) && top.time <= now <= runnerUp.time
    requires runnerUp.sample < top.sample && runnerUp.time - top.time > w / 4
    ensures Updated(w, e, runnerUp) in {[top, runnerUp, runnerUp], [runnerUp, runnerUp, runnerUp]}
  {
  }

  lemma {:induction false} RunStep(w: nat, h: seq<Entry>, n: nat)
    requires n < |h|
    ensures Run(w, h[..n + 1]) == Updated(w, Run(w, h[..n]), h[n])
  {
    assert h[..n + 1][..n] == h[..n];
  }

  lemma {:induction false} AwaitsUntil(w: nat, h: seq<Entry>, i: nat, j: nat, n: nat)
    requires Chronological(h) && LastPeak(w, h, i) && TopsAfter(h, i, w / 4, j) && i < n <= j
    ensures Awaits(w, Run(w, h[..n]), h[i], h[j], h[n - 1].time)
    decreases n
  {
    hide Updated, Awaits, Run;
    RunStep(w, h, n - 1);
    if n == i + 1 {
      NewBestResets(w, Run(w, h[..i]), h[i]);
      ResetAwaits(w, h[i], h[j]);
    } else {
      AwaitsUntil(w, h, i, j, n - 1);
      EstimatesInOrder(w, h, n - 1);
      UpdateAwaits(w, Run(w, h[..n - 1]), h[n - 1], h[i], h[j], h[n - 2].time);
    }
  }

  lemma {:induction false} ResetAwaits(w: nat, top: Entry, runnerUp: Entry)
    ensures Awaits(w, [top, top, top], top, runnerUp, top.time)
  {
  }

  /** The state that the runner-up makes when it arrives. */
  lemma {:induction false} RunnerUpIsNoted(w: nat, h: seq<Entry>, i: nat, j: nat)
    requires Chronological(h) && LastPeak(w, h, i) && TopsAfter(h, i, w / 4, j)
    ensures Run(w, h[..j + 1]) in {[h[i], h[j], h[j]], [h[j], h[j], h[j]]}
  {
    hide Updated, Run;
    AwaitsUntil(w, h, i, j, j);
    RunStep(w, h, j);
    RunnerUpArrives(w, Run(w, h[..j]), h[i], h[j], h[j - 1].time);
  }

  lemma {:induction false} EstimatesInOrder(w: nat, h: seq<Entry>, n: nat)
    requires Chronological(h) && 0 < n <= |h|
    ensures var e := Run(w, h[..n]);
            e[0].time <= e[1].time <= e[2].time <= h[n - 1].time && e[0].sample >= e[1].sample >= e[2].sample
  {
    hide Run, SuffixMaxima;
    EstimatesAreSuffixMaxima(w, h[..n]);
    SuffixMaximaInOrder(h[..n], Run(w, h[..n]));
  }

  lemma {:induction false} HoldsUntil(w: nat, h: seq<Entry>, top: Entry, peak: Entry, m: nat, n: nat)
    requires Chronological(h) && 0 < m <= n <= |h| && Holds(Run(w, h[..m]), top, peak) && peak.sample < top.sample
    requires forall k :: m <= k < n ==> h[k].sample <= peak.sample && peak.time <= h[k].time <= peak.time + w
    ensures Holds(Run(w, h[..n]), top, peak)
    decreases n
  {
    hide Updated, Holds, Run;
    if n > m {
      HoldsUntil(w, h, top, peak, m, n - 1);
      EstimatesInOrder(w, h, n - 1);
      RunStep(w, h, n - 1);
      UpdateHolds(w, Run(w, h[..n - 1]), h[n - 1], top, peak);
    }
  }

  /**
   What the second best is kept for: after the last peak, the largest sample that came more than a
   quarter of a window later bounds the filter from below until it is a window old itself, also
   when the peak has expired.
   */
  lemma {:induction false} RunnerUpIsRetained(w: nat, h: seq<Entry>, i: nat, j: nat)
    requires Chronological(h) && LastPeak(w, h, i) && TopsAfter(h, i, w / 4, j)
    requires h[|h| - 1].time - h[j].time <= w
    ensures Run(w, h)[0].sample >= h[j].sample
  {
    hide Run, Updated;
    RunnerUpIsNoted(w, h, i, j);
    HoldsUntil(w, h, h[i], h[j], j + 1, |h|);
    assert h[..|h|] == h;
  }

  // ---------- The third best ----------

  /** Before the third record arrives, the third best is the second or no larger than the third record. */
  ghost predicate AwaitsThird(w: nat, e: Estimates, top: Entry, second: Entry, third: Entry, now: nat) {
    e[0] == top && e[1] == second
    && (e[2] == second || (e[2].sample <= third.sample && now - second.time > w / 2))
  }

  lemma {:induction false} UpdateAwaitsThird(w: nat, e: Estimates, new_: Entry, top: Entry, second: Entry,
                                             third: Entry, now: nat)
    requires AwaitsThird(w, e, top, second, third, now) && top.time <= second.time <= e[2].time <= now <= new_.time
    requires new_.time <= top.time + w && new_.sample < second.sample < top.sample && third.sample < second.sample
    requires new_.time - second.time > w / 2 ==> new_.sample <= third.sample
    ensures AwaitsThird(w, Updated(w, e, new_), top, second, third, new_.time)
    ensures new_ == third && new_.time - second.time > w / 2 ==> Updated(w, e, new_) == [top, second, third]
  {
  }

  /** The best estimate makes up for the third record, or one of the others will in time. */
  ghost predicate HoldsThird(e: Estimates, top: Entry, second: Entry, third: Entry) {
    Holds(e, second, third)
    || (e[0] == top && e[1] == second && third.sample <= e[2].sample < second.sample && e[2].time >= third.time)
  }

  lemma {:induction false} UpdateHoldsThird(w: nat, e: Estimates, new_: Entry, top: Entry, second: Entry, third: Entry)
    requires HoldsThird(e, top, second, third) && e[0].time <= e[1].time <= e[2].time <= new_.time
    requires new_.sample <= third.sample < second.sample < top.sample && third.time <= new_.time <= third.time + w
    ensures HoldsThird(Updated(w, e, new_), top, second, third)
  {
  }

  /** Record j beats every later record. */
  ghost predicate BeatsLater(h: seq<Entry>, j: nat) {
    j < |h| && forall k :: j < k < |h| ==> h[k].sample < h[j].sample
  }

  lemma {:induction false} AwaitsThirdUntil(w: nat, h: seq<Entry>, i: nat, j: nat, l: nat, n: nat)
    requires Chronological(h) && LastPeak(w, h, i) && TopsAfter(h, i, w / 4, j)
    requires BeatsLater(h, j) && TopsAfter(h, j, w / 2, l) && h[l].time - h[i].time <= w && j < n <= l
    ensures AwaitsThird(w, Run(w, h[..n]), h[i], h[j], h[l], h[n - 1].time)
    decreases n
  {
    hide Updated, Run, AwaitsThird;
    if n == j + 1 {
      RunnerUpIsNoted(w, h, i, j);
      PeakIsBest(w, h, i, n);
      NotedAwaits(w, h[i], h[j], h[l]);
    } else {
      AwaitsThirdUntil(w, h, i, j, l, n - 1);
      EstimatesInOrder(w, h, n - 1);
      RunStep(w, h, n - 1);
      SecondIsBefore(w, Run(w, h[..n - 1]), h[i], h[j], h[l], h[n - 2].time);
      UpdateAwaitsThird(w, Run(w, h[..n - 1]), h[n - 1], h[i], h[j], h[l], h[n - 2].time);
    }
  }

  lemma {:induction false} SecondIsBefore(w: nat, e: Estimates, top: Entry, second: Entry, third: Entry, now: nat)
    requires AwaitsThird(w, e, top, second, third, now)
    ensures e[1] == second
  {
  }

  lemma {:induction false} NotedAwaits(w: nat, top: Entry, second: Entry, third: Entry)
    ensures AwaitsThird(w, [top, second, second], top, second, third, second.time)
  {
  }

  /** Within a window of the last peak the best estimate is at least the peak. */
  lemma {:induction false} PeakIsBest(w: nat, h: seq<Entry>, i: nat, n: nat)
    requires Chronological(h) && LastPeak(w, h, i) && i < n <= |h| && h[n - 1].time - h[i].time <= w
    ensures Run(w, h[..n])[0].sample >= h[i].sample
  {
    hide Run;
    assert h[..n][..i] == h[..i];
    PeakIsRetained(w, h[..n], i);
  }

  lemma {:induction false} HoldsThirdUntil(w: nat, h: seq<Entry>, top: Entry, second: Entry, third: Entry, m: nat,
                                           n: nat)
    requires Chronological(h) && 0 < m <= n <= |h| && HoldsThird(Run(w, h[..m]), top, second, third)
    requires third.sample < second.sample < top.sample
    requires forall k :: m <= k < n ==> h[k].sample <= third.sample && third.time <= h[k].time <= third.time + w
    ensures HoldsThird(Run(w, h[..n]), top, second, third)
    decreases n
  {
    hide Updated, HoldsThird, Run;
    if n > m {
      HoldsThirdUntil(w, h, top, second, third, m, n - 1);
      EstimatesInOrder(w, h, n - 1);
      RunStep(w, h, n - 1);
      UpdateHoldsThird(w, Run(w, h[..n - 1]), h[n - 1], top, second, third);
    }
  }

  /**
   What the third best is kept for: after the last peak and its runner-up, the largest sample that
   came more than half a window after the runner-up, with the peak still in the window, bounds the
   filter from below until it is a window old itself, also when both have expired.
   */
  lemma {:induction false} ThirdIsRetained(w: nat, h: seq<Entry>, i: nat, j: nat, l: nat)
    requires Chronological(h) && LastPeak(w, h, i) && TopsAfter(h, i, w / 4, j)
    requires BeatsLater(h, j) && TopsAfter(h, j, w / 2, l) && h[l].time - h[i].time <= w
    requires h[|h| - 1].time - h[l].time <= w
    ensures Run(w, h)[0].sample >= h[l].sample
  {
    hide Run, Updated;
    AwaitsThirdUntil(w, h, i, j, l, l);
    EstimatesInOrder(w, h, l);
    RunStep(w, h, l);
    UpdateAwaitsThird(w, Run(w, h[..l]), h[l], h[i], h[j], h[l], h[l - 1].time);
    HoldsThirdUntil(w, h, h[i], h[j], h[l], l + 1, |h|);
    assert h[..|h|] == h;
  }

  const FORGETFUL := [Entry(100, 0), Entry(90, 5), Entry(10, 9), Entry(50, 9), Entry(40, 10), Entry(5, 14),
                      Entry(4, 18)]

  lemma {:induction false} NextRun(w: nat, h: seq<Entry>, n: nat, e: Estimates, next: Estimates)
    requires n < |h| && Run(w, h[..n]) == e && Updated(w, e, h[n]) == next
    ensures Run(w, h[..n + 1]) == next
  {
    RunStep(w, h, n);
  }

  lemma {:induction false} ForgetfulRun()
    ensures Run(8, FORGETFUL)[0].sample == 5
  {
    hide Run;
    var h := FORGETFUL;
    StartOfRun(8, h);
    NextRun(8, h, 0, CLEARED, [h[0], h[0], h[0]]);
    NextRun(8, h, 1, [h[0], h[0], h[0]], [h[0], h[1], h[1]]);
    NextRun(8, h, 2, [h[0], h[1], h[1]], [h[1], h[1], h[2]]);
    NextRun(8, h, 3, [h[1], h[1], h[2]], [h[1], h[3], h[3]]);
    NextRun(8, h, 4, [h[1], h[3], h[3]], [h[1], h[3], h[3]]);
    NextRun(8, h, 5, [h[1], h[3], h[3]], [h[3], h[3], h[5]]);
    NextRun(8, h, 6, [h[3], h[3], h[5]], [h[5], h[6], h[6]]);
    assert h[..7] == h;
  }

  lemma {:induction false} StartOfRun(w: nat, h: seq<Entry>)
    ensures Run(w, h[..0]) == CLEARED
  {
    assert h[..0] == [];
  }

  /**
   That the peak is still in the window is needed: in a window of 8, the sample of 40 is forgotten
   when it is 8 old, although it is the largest of more than half a window after the runner-up.
   */
  lemma {:induction false} ThirdIsForgotten()
    ensures var h := FORGETFUL;
            && Chronological(h) && LastPeak(8, h, 0) && TopsAfter(h, 0, 2, 1) && BeatsLater(h, 1)
            && TopsAfter(h, 1, 4, 4) && h[6].time - h[4].time <= 8 && Run(8, h)[0].sample < h[4].sample
  {
    hide Run;
    ForgetfulRun();
    StartOfRun(8, FORGETFUL);
  }
}
