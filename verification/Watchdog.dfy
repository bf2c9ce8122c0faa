/** `watch_until_deadline` (scripts/lambda_gpu_guard.py:858-931): wait for the
    spend deadline on two clocks, then retry termination until it is confirmed. */
module Watchdog {
  import CostWindow
  import DecimalArithmetic
  import SpendBound
  import opened TerminationCall

  function Max(a: int, b: int): int { if a > b then a else b }

  function Min(a: int, b: int): int { if a < b then a else b }

  const LONGEST_SLEEP: nat := 30 * SECOND

  /** The largest lag among the clock readings and sleeps from..to. */
  ghost predicate LargestLag(lag: nat -> nat, from: nat, to: nat, largest: nat) {
    && (forall i :: from <= i < to ==> lag(i) <= largest)
    && (largest == 0 || exists i :: from <= i < to && lag(i) == largest)
  }

  /** The largest lag so far, with the next operation's. */
  lemma NextLag(lag: nat -> nat, from: nat, to: nat, largest: nat)
    requires from <= to && LargestLag(lag, from, to, largest)
    ensures LargestLag(lag, from, to + 1, Max(largest, lag(to))) && lag(to) <= Max(largest, lag(to))
  {
  }

  lemma NoLag(lag: nat -> nat, from: nat)
    ensures LargestLag(lag, from, from, 0)
  {
  }

  /** Ends as soon as one clock says so and, whatever the wall clock does after the
      first reading, no later than the time then remaining plus five lags.  `readings` is
      when the wall clock was read: at least once in thirty seconds, lags apart. */
  method WaitForDeadline(w: World, deadline: int) returns (ghost worst: nat, ghost readings: seq<int>)
    modifies w`mono, w`operations, w`walled
    ensures w.walled >= old(w.walled) + 2 && w.mono >= old(w.mono) && w.operations >= old(w.operations)
    ensures LargestLag(w.lag, old(w.operations), w.operations, worst)
    ensures var remaining := Max(0, deadline - w.walls(old(w.walled)));
      && (w.walls(w.walled - 1) >= deadline || w.mono >= old(w.mono) + remaining)
      && w.mono <= old(w.mono) + remaining + 5 * worst
    ensures forall k :: old(w.walled) < k < w.walled - 1 ==> w.walls(k) < deadline
    ensures |readings| == w.walled - old(w.walled)
    ensures forall k :: 0 <= k < |readings| - 1 ==> readings[k + 1] - readings[k] <= 30_000_000 + 3 * worst
  {
    hide LargestLag;
    var cutoff: int;
    cutoff, worst, readings := FixCutoff(w, deadline);
    ghost var initial := Max(0, deadline - w.walls(old(w.walled)));
    while true
      invariant w.walled >= old(w.walled) + 1 && w.operations >= old(w.operations)
      invariant LargestLag(w.lag, old(w.operations), w.operations, worst)
      invariant cutoff <= old(w.mono) + initial + 2 * worst && cutoff >= old(w.mono) + initial
      invariant w.mono >= old(w.mono) && w.mono <= cutoff + worst
      invariant forall k :: old(w.walled) < k < w.walled ==> w.walls(k) < deadline
      invariant |readings| == w.walled - old(w.walled) && w.mono - readings[|readings| - 1] <= LONGEST_SLEEP + 2 * worst
      invariant forall k :: 0 <= k < |readings| - 1 ==> readings[k + 1] - readings[k] <= LONGEST_SLEEP + 3 * worst
      decreases cutoff - w.mono
    {
      var remaining: int;
      ghost var readAt: int;
      remaining, worst, readAt := ReadClocks(w, deadline, cutoff, old(w.operations), worst);
      readings := readings + [readAt];
      if remaining <= 0 { return; }
      worst := NoteLag(w, old(w.operations), worst);
      w.Sleep(Min(LONGEST_SLEEP, remaining));
    }
  }

  /** The time remaining at entry, put on the monotonic clock. */
  method FixCutoff(w: World, deadline: int) returns (cutoff: int, ghost worst: nat, ghost readings: seq<int>)
    modifies w`mono, w`operations, w`walled
    ensures w.walled == old(w.walled) + 1 && w.operations == old(w.operations) + 2
    ensures LargestLag(w.lag, old(w.operations), w.operations, worst)
    ensures cutoff == w.mono + Max(0, deadline - w.walls(old(w.walled)))
    ensures old(w.mono) <= w.mono <= old(w.mono) + 2 * worst
    ensures |readings| == 1 && w.mono - readings[0] <= worst
  {
    hide LargestLag;
    NoLag(w.lag, w.operations);
    worst := NoteLag(w, old(w.operations), 0);
    var first := w.WallClock();
    readings := [w.mono];
    worst := NoteLag(w, old(w.operations), worst);
    var start := w.Monotonic();
    cutoff := start + Max(0, deadline - first);
  }

  /** The largest lag once the coming operation is over. */
  ghost method NoteLag(w: World, from: nat, worst: nat) returns (largest: nat)
    requires from <= w.operations && LargestLag(w.lag, from, w.operations, worst)
    ensures LargestLag(w.lag, from, w.operations + 1, largest)
    ensures worst <= largest && w.lag(w.operations) <= largest
  {
    NextLag(w.lag, from, w.operations, worst);
    largest := Max(worst, w.lag(w.operations));
  }

  /** What remains of the wait by the earlier of the two clocks. */
  method ReadClocks(w: World, deadline: int, cutoff: int, ghost from: nat, ghost worst: nat)
    returns (remaining: int, ghost largest: nat, ghost readAt: int)
    requires from <= w.operations && LargestLag(w.lag, from, w.operations, worst)
    modifies w`mono, w`operations, w`walled
    ensures w.operations == old(w.operations) + 2 && LargestLag(w.lag, from, w.operations, largest) && worst <= largest
    ensures w.walled == old(w.walled) + 1 && old(w.mono) <= w.mono <= old(w.mono) + 2 * largest
    ensures remaining == Min(deadline - w.walls(old(w.walled)), cutoff - w.mono)
    ensures old(w.mono) <= readAt <= old(w.mono) + largest && w.mono - largest <= readAt <= w.mono
  {
    hide LargestLag;
    largest := NoteLag(w, from, worst);
    var wall := w.WallClock();
    readAt := w.mono;
    largest := NoteLag(w, from, largest);
    var now := w.Monotonic();
    remaining := Min(deadline - wall, cutoff - now);
  }

  datatype WatchResult = Watched(result: Termination) | GaveUp

  /** One entry per call of `terminate_and_wait`, in order. */
  ghost predicate AllUnconfirmed(calls: seq<seq<Event>>) {
    forall i :: 0 <= i < |calls| ==> Run(calls[i]) == Raised && forall e :: e in calls[i] ==> !SawFinal(e)
  }

  /** A sleep of that many seconds, with the lag of one clock reading and its own. */
  ghost predicate SleptFor(lag: nat -> nat, time: int, seconds: int) {
    exists i: nat :: IsSleep(lag, time, seconds, i)
  }

  predicate IsSleep(lag: nat -> nat, time: int, seconds: int, i: nat) {
    time == seconds * SECOND + lag(i) + lag(i + 1)
  }

  lemma Slept(lag: nat -> nat, time: int, seconds: int, i: nat)
    requires time == seconds * SECOND + lag(i) + lag(i + 1)
    ensures SleptFor(lag, time, seconds)
  {
    assert IsSleep(lag, time, seconds, i);
  }

  /** Retries until one call confirms, and gives up only after trying for the
      whole retry window without a single listing that showed the instance gone.
      `asked` is when the first call begins, which starts with a listing; `pauses` are the
      times from the end of a call to the beginning of the next. */
  method TerminateUntilConfirmed(w: World, pollSeconds: nat, timeoutSeconds: nat, retryWindowSeconds: nat)
    returns (r: WatchResult, ghost calls: seq<seq<Event>>, ghost asked: int, ghost pauses: seq<int>)
    modifies w`mono, w`operations, w`listed, w`requested, w`events
    ensures asked == old(w.mono) + w.lag(old(w.operations)) && w.mono >= asked && w.operations > old(w.operations)
    ensures w.mono >= old(w.mono)
    ensures |calls| >= 1 && calls[|calls| - 1] == w.events
    ensures AllUnconfirmed(calls[..|calls| - 1])
    ensures w.requested - old(w.requested) <= |calls|
    ensures match r
      case Watched(t) => Run(w.events) == Returned(t)
      case GaveUp => AllUnconfirmed(calls) && w.mono >= old(w.mono) + retryWindowSeconds * SECOND
    ensures |pauses| == |calls| - 1
    ensures forall k :: 0 <= k < |pauses| ==> SleptFor(w.lag, pauses[k], Max(2, pollSeconds))
    ensures |calls| > 1 ==> Waits(|calls| - 1, Max(2, pollSeconds)) < retryWindowSeconds + Max(2, pollSeconds)
  {
    hide SleptFor;
    var begun := w.Monotonic();
    var retryDeadline := begun + retryWindowSeconds * SECOND;
    calls, asked, pauses := [], w.mono, [];
    ghost var waited := 0;
    while true
      invariant w.mono >= begun && w.operations > old(w.operations)
      invariant AllUnconfirmed(calls) && |pauses| == |calls|
      invariant forall k :: 0 <= k < |pauses| ==> SleptFor(w.lag, pauses[k], Max(2, pollSeconds))
      invariant w.requested - old(w.requested) <= |calls|
      invariant waited == Waits(|calls|, Max(2, pollSeconds))
      invariant w.mono >= begun + waited * SECOND
      invariant |calls| > 0 ==> waited - Max(2, pollSeconds) < retryWindowSeconds
      decreases retryDeadline - w.mono
    {
      var outcome := w.TerminateAndWait(pollSeconds, timeoutSeconds);
      CallDiscipline(w.events);
      ghost var earlier := calls;
      calls := calls + [w.events];
      assert calls[..|calls| - 1] == earlier;
      if outcome.Confirmed? {
        return Watched(outcome.result), calls, asked, pauses;
      }
      ghost var ended, i := w.mono, w.operations;
      var now := w.Monotonic();
      if now >= retryDeadline {
        return GaveUp, calls, asked, pauses;
      }
      w.Sleep(Max(2, pollSeconds) * SECOND);
      Slept(w.lag, w.mono - ended, Max(2, pollSeconds), i);
      pauses := pauses + [w.mono - ended];
      waited := waited + Max(2, pollSeconds);
    }
  }

  /** A window that `compute_cost_window` returned for amounts the parsers accept. */
  ghost predicate Bought(window: CostWindow.Window) {
    && SpendBound.Accepted(window.rate, SpendBound.MAX_RATE) && SpendBound.Accepted(window.cost, SpendBound.MAX_COST)
    && exists start, margin, now ::
      CostWindow.Compute(CostWindow.Aware(start), window.rate, window.cost, margin, CostWindow.Aware(now)) == CostWindow.Ok(window)
  }

  /** A session that ends at `stopped` has cost no more than the cap. */
  predicate KeepsTheCap(window: CostWindow.Window, stopped: int) {
    && SpendBound.Accepted(window.rate, SpendBound.MAX_RATE) && SpendBound.Accepted(window.cost, SpendBound.MAX_COST)
    && SpendBound.Micros(window.rate) * (stopped - window.started) <= 3600 * SECOND * SpendBound.Micros(window.cost)
  }

  lemma BoughtKeepsTheCap(window: CostWindow.Window, stopped: int)
    requires Bought(window) && stopped <= window.costLimit
    ensures KeepsTheCap(window, stopped) && window.costLimit - window.deadline == window.margin * SECOND
  {
    hide CostWindow.Compute, SpendBound.Micros, SpendBound.Accepted;
    var start, margin, now :|
      CostWindow.Compute(CostWindow.Aware(start), window.rate, window.cost, margin, CostWindow.Aware(now)) == CostWindow.Ok(window);
    CostWindow.WindowIsSafe(start, window.rate, window.cost, margin, now);
    CostWindow.BillWithinCap(start, window.rate, window.cost, margin, now, stopped);
  }

  lemma MarginOfBought(window: CostWindow.Window)
    requires Bought(window)
    ensures window.costLimit - window.deadline == window.margin * SECOND
  {
    BoughtKeepsTheCap(window, window.costLimit);
  }

  /** The whole watch: a result means the provider was seen to have let the
      instance go, and no request is made before the deadline came on a clock.
      The first listing is asked for at `asked`, at the latest when the time remaining at
      entry has passed, plus six times the largest lag until then.  If the watch began before
      its deadline and the provider ends the instance within `latency` of that listing, and
      both fit the safety margin, the session costs no more than the cap. */
  method Watch(w: World, window: CostWindow.Window, pollSeconds: nat, timeoutSeconds: nat, retryWindowSeconds: nat, ghost latency: nat)
    returns (r: WatchResult, ghost calls: seq<seq<Event>>, ghost asked: int, ghost worst: nat)
    modifies w`mono, w`operations, w`walled, w`listed, w`requested, w`events
    ensures |calls| >= 1 && calls[|calls| - 1] == w.events && AllUnconfirmed(calls[..|calls| - 1])
    ensures r.Watched? ==>
      && Run(w.events) == Returned(r.result) && r.result.final.Final()
      && w.events[|w.events| - 1] == Got(Listed(r.result.final))
    ensures r.GaveUp? ==>
      && AllUnconfirmed(calls)
      && w.mono >= old(w.mono) + retryWindowSeconds * SECOND
    ensures w.walled >= old(w.walled) + 2
    ensures exists n :: old(w.operations) <= n <= w.operations && LargestLag(w.lag, old(w.operations), n, worst)
    ensures var entered := w.walls(old(w.walled));
      var remaining := Max(0, window.deadline - entered);
      && asked <= old(w.mono) + remaining + 6 * worst
      && (w.walls(w.walled - 1) >= window.deadline || asked >= old(w.mono) + remaining)
      && (Bought(window) && entered <= window.deadline && 6 * worst + latency <= window.margin * SECOND ==>
            KeepsTheCap(window, entered + (asked - old(w.mono)) + latency))
  {
    hide LargestLag, Bought, KeepsTheCap;
    ghost var entered := w.walls(w.walled);
    ghost var readings: seq<int>;
    worst, readings := WaitForDeadline(w, window.deadline);
    worst := NoteLag(w, old(w.operations), worst);
    ghost var n := w.operations + 1;
    ghost var pauses: seq<int>;
    r, calls, asked, pauses := TerminateUntilConfirmed(w, pollSeconds, timeoutSeconds, retryWindowSeconds);
    CallDiscipline(w.events);
    if Bought(window) && entered <= window.deadline && 6 * worst + latency <= window.margin * SECOND {
      MarginOfBought(window);
      BoughtKeepsTheCap(window, entered + (asked - old(w.mono)) + latency);
    }
    assert old(w.operations) <= n <= w.operations && LargestLag(w.lag, old(w.operations), n, worst);
  }
}
