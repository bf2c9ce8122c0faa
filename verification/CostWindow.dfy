/** `compute_cost_window` and its round trip through the watchdog's command line
    (scripts/lambda_gpu_guard.py:430-474, 539-586, 662-688, 1341-1360). */
module CostWindow {
  import opened Wrappers
  import opened DecimalArithmetic
  import opened DecimalText
  import opened SpendBound

  const SECOND: nat := 1_000_000
  const MAX_CLOCK_SKEW: nat := 30
  const MAX_MARGIN: nat := 3_600

  /** A `datetime`, as microseconds since a fixed UTC origin when it carries an offset. */
  datatype Stamp = Naive | Aware(micros: int)

  datatype WindowError =
    NaiveStart | NaiveNow | NonPositiveCost | MarginOutsideLimits | FutureStart | CapBelowOneSecond | BadArgument

  datatype Result<T> = Ok(value: T) | Err(error: WindowError)

  datatype Window = Window(
    started: int,
    deadline: int,
    costLimit: int,
    allowed: nat,
    margin: nat,
    rate: Decimal,
    cost: Decimal)

  function Min(a: int, b: int): int { if a < b then a else b }

  function Compute(start: Stamp, rate: Decimal, cost: Decimal, margin: int, now: Stamp): Result<Window> {
    if start.Naive? then Err(NaiveStart)
    else if now.Naive? then Err(NaiveNow)
    else if rate.coeff == 0 || cost.coeff == 0 then Err(NonPositiveCost)
    else if !(1 <= margin <= MAX_MARGIN) then Err(MarginOutsideLimits)
    else if start.micros > now.micros + MAX_CLOCK_SKEW * SECOND then Err(FutureStart)
    else
      var started := Min(start.micros, now.micros);
      var allowed := AllowedSeconds(cost, rate);
      if allowed < 1 then Err(CapBelowOneSecond)
      else
        var clamped := Min(margin, allowed);
        var limit := started + allowed * SECOND;
        Ok(Window(started, limit - clamped * SECOND, limit, allowed, clamped, rate, cost))
  }

  /** A window exists exactly when the cap buys a whole second and the inputs
      are usable; it never lets the bill exceed the cap.  The deadline is the cost limit less the
      whole margin asked for, or the start when the margin leaves nothing. */
  lemma WindowIsSafe(start: int, rate: Decimal, cost: Decimal, margin: int, now: int)
    requires Accepted(rate, MAX_RATE) && Accepted(cost, MAX_COST)
    ensures var r := Compute(Aware(start), rate, cost, margin, Aware(now));
      && (r.Ok? <==> 1 <= margin <= 3_600 && start <= now + 30_000_000
                     && Micros(rate) <= 3600 * Micros(cost))
      && (r == Err(MarginOutsideLimits) <==> !(1 <= margin <= 3_600))
      && (r == Err(FutureStart) <==> 1 <= margin <= 3_600 && start > now + 30_000_000)
      && (r == Err(CapBelowOneSecond) <==> 1 <= margin <= 3_600 && start <= now + 30_000_000 && Micros(rate) > 3600 * Micros(cost))
      && (r.Ok? ==>
            var w := r.value;
            && w.started <= w.deadline <= w.costLimit
            && w.costLimit - w.deadline == w.margin * SECOND
            && 1 <= w.margin <= w.allowed && w.margin <= margin && (w.margin == margin || w.margin == w.allowed)
            && w.allowed == ExactSeconds(cost, rate) - (if RoundsBelow(cost, rate) then 1 else 0)
            && w.rate == rate && w.cost == cost
            && w.costLimit - w.started == w.allowed * SECOND
            && w.started <= start && w.started <= now && (w.started == start || w.started == now)
            && Micros(rate) * w.allowed <= 3600 * Micros(cost)
            && 3600 * Micros(cost) < Micros(rate) * (w.allowed + 2))
  {
    AllowedWithinCap(cost, rate);
    AllowedSecondsExactly(cost, rate);
    hide AllowedSeconds, ExactSeconds, RoundsBelow, Micros;
  }

  /** Whatever instant up to the cost limit the instance dies at, its bill stays within the cap. */
  lemma BillWithinCap(start: int, rate: Decimal, cost: Decimal, margin: int, now: int, stopped: int)
    requires Accepted(rate, MAX_RATE) && Accepted(cost, MAX_COST)
    requires var r := Compute(Aware(start), rate, cost, margin, Aware(now)); r.Ok? && stopped <= r.value.costLimit
    ensures var w := Compute(Aware(start), rate, cost, margin, Aware(now)).value;
      Micros(rate) * (stopped - w.started) <= 3600 * SECOND * Micros(cost)
  {
    WindowIsSafe(start, rate, cost, margin, now);
    var w := Compute(Aware(start), rate, cost, margin, Aware(now)).value;
    BillScaled(Micros(rate), Micros(cost), w.allowed, stopped - w.started);
  }

  lemma BillScaled(r: nat, c: nat, a: nat, elapsed: int)
    requires r * a <= 3600 * c && elapsed <= a * SECOND
    ensures r * elapsed <= 3600 * SECOND * c
  {
    assert r * elapsed <= r * (a * SECOND);
    assert r * (a * SECOND) == (r * a) * SECOND;
  }

  /** Thirteen dollars at nine dollars an hour buy 5200 seconds; the watchdog grants 5199. */
  lemma OneSecondIsLost()
    ensures var cost, rate := Decimal(13, 0), Decimal(9, 0);
      && Accepted(cost, MAX_COST) && Accepted(rate, MAX_RATE)
      && ExactSeconds(cost, rate) == 5200 && AllowedSeconds(cost, rate) == 5199
  {
    hide AllowedSeconds, ExactSeconds;
    WholeDollars(13);
    WholeDollars(9);
    ExactSecondsUnique(Decimal(13, 0), Decimal(9, 0), 5200);
    FallsShortAt5200();
    AllowedSecondsExactly(Decimal(13, 0), Decimal(9, 0));
  }

  lemma FallsShortAt5200()
    ensures FallsShortOf(5200)
  {
    assert Digits(5200) == 4 by { assert Digits(52) == 2; assert Digits(520) == 3; }
    assert Pow10(3) == 1000;
  }

  lemma WholeDollars(k: nat)
    ensures Micros(Decimal(k, 0)) == k * 1_000_000
  {
    assert Pow10(6) == 1_000_000;
  }

  // ---- The command line of the watchdog process -------------------------------

  /** ISO 8601 text of an instant, as the standard library prints and parses it. */
  datatype Clockwork = Clockwork(text: int -> string, read: string -> Option<int>) {
    ghost predicate Inverse() {
      forall t :: read(text(t)) == Some(t)
    }
  }

  datatype Arguments = Arguments(rate: string, cost: string, start: string, margin: string)

  function CommandLine(w: Window, clock: Clockwork): Arguments
    requires w.rate.exp <= 0 && w.cost.exp <= 0
  {
    Arguments(WriteDecimal(w.rate), WriteDecimal(w.cost), clock.text(w.started), Numeral(w.margin))
  }

  function ReadAmount(s: string, maximum: nat): Option<Decimal> {
    if Matches(s) && Accepted(ReadDecimal(s), maximum) then Some(ReadDecimal(s)) else None
  }

  /** A cap of 100,000 and a rate of 10,000 an hour are the largest amounts read. */
  lemma LargestAmounts(s: string)
    ensures ReadAmount("100000", MAX_COST) == Some(Decimal(100_000, 0)) && ReadAmount("10000", MAX_RATE) == Some(Decimal(10_000, 0))
    ensures Matches(s) && Micros(ReadDecimal(s)) > 100_000_000_000 ==> ReadAmount(s, MAX_COST) == None
    ensures Matches(s) && Micros(ReadDecimal(s)) > 10_000_000_000 ==> ReadAmount(s, MAX_RATE) == None
  {
    WholeDollars(100_000);
    WholeDollars(10_000);
    RoundNumerals();
    DigitsRead("10000", 10_000);
    DigitsRead("100000", 100_000);
    hide Micros;
  }

  lemma DigitsRead(s: string, n: nat)
    requires n > 0 && s == Numeral(n) && s[0] != '0'
    ensures Matches(s) && ReadDecimal(s) == Decimal(n, 0)
  {
    NumberOfNumeral(n);
    ReadWhole(s);
  }

  lemma RoundNumerals()
    ensures Numeral(10_000) == "10000" && Numeral(100_000) == "100000"
  {
    assert Numeral(1) == "1";
    assert Numeral(10) == "10";
    assert Numeral(100) == "100";
    assert Numeral(1_000) == "1000";
    assert Numeral(10_000) == "10000";
  }

  function WatchWindow(a: Arguments, clock: Clockwork, now: int): Result<Window> {
    var rate := ReadAmount(a.rate, MAX_RATE);
    var cost := ReadAmount(a.cost, MAX_COST);
    var start := clock.read(a.start);
    var margin := ReadInteger(a.margin, 1, MAX_MARGIN);
    if rate.None? || cost.None? || start.None? || margin.None? then Err(BadArgument)
    else Compute(Aware(start.value), rate.value, cost.value, margin.value, Aware(now))
  }

  datatype WindowRecord = WindowRecord(
    allowedSeconds: nat,
    startedAt: string,
    costLimitDeadline: string,
    deadline: string,
    rate: string,
    cost: string,
    margin: nat)

  function PublicRecord(w: Window, clock: Clockwork): WindowRecord
    requires w.rate.exp <= 0 && w.cost.exp <= 0
  {
    WindowRecord(w.allowed, clock.text(w.started), clock.text(w.costLimit), clock.text(w.deadline),
                 WriteDecimal(w.rate), WriteDecimal(w.cost), w.margin)
  }

  /** The watchdog recomputes the controller's window from its command line, and
      so writes the same record, exactly when its clock has not fallen behind
      the billing start; further behind than the skew it refuses to run. */
  lemma SameWindowAcrossProcesses(start: Stamp, rate: Decimal, cost: Decimal, margin: int, now: Stamp,
                                  clock: Clockwork, later: int)
    requires clock.Inverse() && Accepted(rate, MAX_RATE) && Accepted(cost, MAX_COST)
    requires Compute(start, rate, cost, margin, now).Ok?
    ensures var w := Compute(start, rate, cost, margin, now).value;
      && w.rate.exp <= 0 && w.cost.exp <= 0
      && var seen := WatchWindow(CommandLine(w, clock), clock, later);
      && (seen == Ok(w) <==> w.started <= later)
      && (seen == Err(FutureStart) <==> w.started > later + MAX_CLOCK_SKEW * SECOND)
      && (seen.Ok? ==> seen.value.rate == rate && seen.value.cost == cost
                       && seen.value.deadline - seen.value.started == w.deadline - w.started
                       && (PublicRecord(seen.value, clock) == PublicRecord(w, clock) <==> w.started <= later))
  {
    var w := Compute(start, rate, cost, margin, now).value;
    SeenByWatchdog(start, rate, cost, margin, now, clock, later);
    var seen := WatchWindow(CommandLine(w, clock), clock, later);
    if seen.Ok? {
      hide Compute, WatchWindow, CommandLine, WriteDecimal, Accepted;
      assert clock.read(clock.text(seen.value.started)) == Some(seen.value.started);
      assert clock.read(clock.text(w.started)) == Some(w.started);
    }
  }

  /** The window as the watchdog computes it: the same one, or one moved back with its clock. */
  function MovedBack(w: Window, now: int): Result<Window> {
    if w.started > now + MAX_CLOCK_SKEW * SECOND then Err(FutureStart)
    else
      var back := w.started - Min(w.started, now);
      Ok(w.(started := w.started - back, deadline := w.deadline - back, costLimit := w.costLimit - back))
  }

  lemma SeenByWatchdog(start: Stamp, rate: Decimal, cost: Decimal, margin: int, now: Stamp, clock: Clockwork, later: int)
    requires clock.Inverse() && Accepted(rate, MAX_RATE) && Accepted(cost, MAX_COST)
    requires Compute(start, rate, cost, margin, now).Ok?
    ensures var w := Compute(start, rate, cost, margin, now).value;
      && w.rate == rate && w.cost == cost
      && WatchWindow(CommandLine(w, clock), clock, later) == MovedBack(w, later)
  {
    var w := Compute(start, rate, cost, margin, now).value;
    assert w.rate == rate && w.cost == cost && 1 <= w.margin <= MAX_MARGIN;
    ArgumentsSurvive(w, clock);
    Recompute(start, rate, cost, margin, now, later);
    hide Compute, CommandLine, ReadAmount, ReadInteger, MovedBack;
  }

  lemma ArgumentsSurvive(w: Window, clock: Clockwork)
    requires clock.Inverse() && Accepted(w.rate, MAX_RATE) && Accepted(w.cost, MAX_COST) && 1 <= w.margin <= MAX_MARGIN
    ensures var a := CommandLine(w, clock);
      && ReadAmount(a.rate, MAX_RATE) == Some(w.rate) && ReadAmount(a.cost, MAX_COST) == Some(w.cost)
      && clock.read(a.start) == Some(w.started) && ReadInteger(a.margin, 1, MAX_MARGIN) == Some(w.margin)
  {
    PositiveCoefficient(w.rate.coeff, Pow10(6 + w.rate.exp));
    PositiveCoefficient(w.cost.coeff, Pow10(6 + w.cost.exp));
    ReadOfWrite(w.rate);
    ReadOfWrite(w.cost);
    IntegerRoundTrip(w.margin, 1, MAX_MARGIN);
  }

  /** Recomputing from the clamped start and margin. */
  lemma Recompute(start: Stamp, rate: Decimal, cost: Decimal, margin: int, now: Stamp, later: int)
    requires Compute(start, rate, cost, margin, now).Ok?
    ensures var w := Compute(start, rate, cost, margin, now).value;
      Compute(Aware(w.started), rate, cost, w.margin, Aware(later)) == MovedBack(w, later)
  {
    hide AllowedSeconds;
  }

  /** The operator's own rate and cap text reappears in the record unchanged. */
  lemma RecordQuotesOperator(rateText: string, costText: string, start: Stamp, margin: int, now: Stamp, clock: Clockwork)
    requires ReadAmount(rateText, MAX_RATE).Some? && ReadAmount(costText, MAX_COST).Some?
    requires Compute(start, ReadAmount(rateText, MAX_RATE).value, ReadAmount(costText, MAX_COST).value, margin, now).Ok?
    ensures var w := Compute(start, ReadAmount(rateText, MAX_RATE).value, ReadAmount(costText, MAX_COST).value, margin, now).value;
      && PublicRecord(w, clock).rate == rateText && PublicRecord(w, clock).cost == costText
  {
    AmountsAreKept(start, ReadAmount(rateText, MAX_RATE).value, ReadAmount(costText, MAX_COST).value, margin, now);
    AmountIsQuoted(rateText, MAX_RATE);
    AmountIsQuoted(costText, MAX_COST);
    hide Compute, ReadAmount, WriteDecimal;
  }

  lemma AmountsAreKept(start: Stamp, rate: Decimal, cost: Decimal, margin: int, now: Stamp)
    requires Compute(start, rate, cost, margin, now).Ok?
    ensures Compute(start, rate, cost, margin, now).value.rate == rate
    ensures Compute(start, rate, cost, margin, now).value.cost == cost
  {
    hide AllowedSeconds;
  }

  lemma AmountIsQuoted(s: string, maximum: nat)
    requires ReadAmount(s, maximum).Some?
    ensures ReadAmount(s, maximum).value.exp <= 0 && WriteDecimal(ReadAmount(s, maximum).value) == s
  {
    PositiveCoefficient(ReadDecimal(s).coeff, Pow10(6 + ReadDecimal(s).exp));
    hide Matches, ReadDecimal, WriteDecimal;
    WriteOfRead(s);
  }

  // ---- The evidence comparison -------------------------------------------------

  /** What the tier policy fixes: seconds, amounts as text, and the safety margin. */
  datatype Policy = Policy(allowed: nat, rate: string, cost: string, margin: nat)

  /** `int(delta.total_seconds())`. */
  function WholeSeconds(delta: int): int {
    if delta >= 0 then delta / SECOND else 0 - (0 - delta) / SECOND
  }

  /** The cost-window part of `_validate_termination_evidence`
      (scripts/capture_real_gpu_over_ssh.py:4117-4188): the armed record against the policy,
      and the receipt's window against the armed record. */
  predicate EvidenceAccepts(policy: Policy, armed: WindowRecord, receipt: WindowRecord, clock: Clockwork) {
    && armed.allowedSeconds == policy.allowed && armed.rate == policy.rate && armed.cost == policy.cost
    && armed.margin == policy.margin
    && clock.read(armed.startedAt).Some? && clock.read(armed.deadline).Some? && clock.read(armed.costLimitDeadline).Some?
    && var limit := clock.read(armed.costLimitDeadline).value;
    && WholeSeconds(limit - clock.read(armed.startedAt).value) == policy.allowed
    && WholeSeconds(limit - clock.read(armed.deadline).value) == policy.margin
    && receipt == armed
  }

  /** A session armed under the policy, with a receipt the watchdog wrote: the evidence is
      accepted if and only if the watchdog's clock had not fallen behind the billing start. */
  lemma WatchdogEvidence(start: Stamp, rate: Decimal, cost: Decimal, margin: int, now: Stamp, clock: Clockwork, later: int, policy: Policy)
    requires clock.Inverse() && Accepted(rate, MAX_RATE) && Accepted(cost, MAX_COST)
    requires Compute(start, rate, cost, margin, now).Ok?
    requires WatchWindow(CommandLine(Compute(start, rate, cost, margin, now).value, clock), clock, later).Ok?
    ensures var w := Compute(start, rate, cost, margin, now).value;
      var seen := WatchWindow(CommandLine(w, clock), clock, later).value;
      var armed := PublicRecord(w, clock);
      && seen.rate == rate && seen.cost == cost
      && (EvidenceAccepts(policy, armed, PublicRecord(seen, clock), clock) <==>
          && w.started <= later
          && policy == Policy(w.allowed, armed.rate, armed.cost, w.margin))
  {
    hide Compute, WatchWindow, CommandLine, WriteDecimal, Accepted, WholeSeconds, PublicRecord;
    SameWindowAcrossProcesses(start, rate, cost, margin, now, clock, later);
    ArmedTimes(start, rate, cost, margin, now, clock);
  }

  lemma ArmedTimes(start: Stamp, rate: Decimal, cost: Decimal, margin: int, now: Stamp, clock: Clockwork)
    requires clock.Inverse() && Accepted(rate, MAX_RATE) && Accepted(cost, MAX_COST)
    requires Compute(start, rate, cost, margin, now).Ok?
    ensures var w := Compute(start, rate, cost, margin, now).value;
      && w.rate == rate && w.cost == cost
      && var armed := PublicRecord(w, clock);
      && armed.allowedSeconds == w.allowed && armed.margin == w.margin
      && clock.read(armed.startedAt) == Some(w.started) && clock.read(armed.deadline) == Some(w.deadline)
      && clock.read(armed.costLimitDeadline) == Some(w.costLimit)
      && WholeSeconds(w.costLimit - w.started) == w.allowed && WholeSeconds(w.costLimit - w.deadline) == w.margin
  {
    hide AllowedSeconds, WriteDecimal, Accepted;
  }
}
