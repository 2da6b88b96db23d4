/** The effect that drives the reminder passes: nothing starts for an empty
    list; otherwise one pass runs at once and then one every hour until the
    interval is cleared. */
module Lifecycle {
  import opened Common
  import opened Expiry
  import Evaluator
  import opened Scheduler

  /** Period of the re-check interval, in milliseconds (one hour). */
  const CheckIntervalMs: int := 3600000

  /** The interval timer: not set, or set with the time of its next firing. */
  datatype Timer = Stopped | Running(nextCheckAt: int)

  /** A timer state together with the times of the passes run on the way to it. */
  datatype Step = Step(timer: Timer, checks: seq<int>)

  /** Mounting the effect at `nowMs` with the given product list. */
  function Start(products: seq<Product>, nowMs: int): (s: Step)
    ensures |products| == 0 ==> s.timer.Stopped? && s.checks == []
    ensures |products| > 0 ==> s.checks == [nowMs] && s.timer == Running(nowMs + CheckIntervalMs)
  {
    if |products| == 0 then Step(Stopped, [])
    else Step(Running(nowMs + CheckIntervalMs), [nowMs])
  }

  /** Tearing the effect down clears the interval. */
  function Cleanup(timer: Timer): (t: Timer)
    ensures t.Stopped?
  {
    Stopped
  }

  /** Let time run up to `untilMs`: a running timer fires at each due instant
      and re-arms one period later; a stopped one does nothing. */
  function Advance(timer: Timer, untilMs: int): (s: Step)
    ensures timer.Stopped? ==> s == Step(Stopped, [])
    ensures timer.Running? ==>
              && s.timer.Running?
              && s.timer.nextCheckAt == timer.nextCheckAt + |s.checks| * CheckIntervalMs
              && untilMs < s.timer.nextCheckAt
    decreases if timer.Running? then untilMs - timer.nextCheckAt + CheckIntervalMs else 0
  {
    match timer
    case Stopped => Step(Stopped, [])
    case Running(next) =>
      if untilMs < next then Step(timer, [])
      else
        var rest := Advance(Running(next + CheckIntervalMs), untilMs);
        Step(rest.timer, [next] + rest.checks)
  }

  /** A running timer fires at its armed time and then once per period, never
      past the target time. */
  lemma {:induction false} AdvanceTimes(timer: Timer, untilMs: int)
    requires timer.Running?
    ensures var s := Advance(timer, untilMs);
            forall i :: 0 <= i < |s.checks| ==>
              s.checks[i] == timer.nextCheckAt + i * CheckIntervalMs <= untilMs
    decreases untilMs - timer.nextCheckAt + CheckIntervalMs
  {
    var next := timer.nextCheckAt;
    if next <= untilMs {
      var rest := Running(next + CheckIntervalMs);
      AdvanceTimes(rest, untilMs);
      var tail := Advance(rest, untilMs).checks;
      assert Advance(timer, untilMs).checks == [next] + tail;
      forall i | 1 <= i < |tail| + 1
        ensures ([next] + tail)[i] == next + i * CheckIntervalMs <= untilMs
      {
        assert ([next] + tail)[i] == tail[i - 1];
      }
    }
  }

  /** The reminders dispatched by passes run at the given times, in order. */
  function DispatchesAt(parse: DateParser, products: seq<Product>, checks: seq<int>): (r: seq<Dispatch>)
    ensures forall k :: 0 <= k < |r| ==> Gated(r[k])
    ensures |checks| == 0 ==> r == []
  {
    if |checks| == 0 then []
    else Pass(checks[0], parse, products) + DispatchesAt(parse, products, checks[1..])
  }

  /** Passes at the times of `a` and then of `b` dispatch what each list does, in that order. */
  lemma {:induction false} DispatchesAtAppend(parse: DateParser, products: seq<Product>, a: seq<int>, b: seq<int>)
    ensures DispatchesAt(parse, products, a + b)
            == DispatchesAt(parse, products, a) + DispatchesAt(parse, products, b)
  {
    if |a| == 0 {
      assert a + b == b;
    } else {
      assert (a + b)[0] == a[0];
      assert (a + b)[1..] == a[1..] + b;
      DispatchesAtAppend(parse, products, a[1..], b);
      ConcatAssoc(Pass(a[0], parse, products), DispatchesAt(parse, products, a[1..]), DispatchesAt(parse, products, b));
    }
  }

  /** Advancing in two legs fires the same checks as advancing in one. */
  lemma {:induction false} AdvanceSplit(timer: Timer, midMs: int, untilMs: int)
    requires midMs <= untilMs
    ensures Advance(Advance(timer, midMs).timer, untilMs).timer == Advance(timer, untilMs).timer
    ensures Advance(timer, midMs).checks + Advance(Advance(timer, midMs).timer, untilMs).checks
            == Advance(timer, untilMs).checks
    decreases if timer.Running? then untilMs - timer.nextCheckAt + CheckIntervalMs else 0
  {
    if timer.Running? && timer.nextCheckAt <= midMs {
      var next := timer.nextCheckAt;
      var rest := Running(next + CheckIntervalMs);
      var first := Advance(rest, midMs);
      var second := Advance(first.timer, untilMs);
      AdvanceSplit(rest, midMs, untilMs);
      assert Advance(timer, midMs) == Step(first.timer, [next] + first.checks);
      assert Advance(timer, untilMs).checks == [next] + Advance(rest, untilMs).checks;
      ConcatAssoc([next], first.checks, second.checks);
    }
  }

  /** An empty list starts nothing: no pass runs and none ever will. */
  lemma EmptyListNeverChecks(nowMs: int, untilMs: int)
    ensures Start([], nowMs).checks == []
    ensures Advance(Start([], nowMs).timer, untilMs).checks == []
  {
  }

  /** A non-empty list is checked at once and then every hour: the passes up to
      `untilMs` are at `nowMs + k` hours for k = 0 .. (untilMs - nowMs) / 1 hour. */
  lemma {:induction false} HourlyChecks(products: seq<Product>, nowMs: int, untilMs: int)
    requires |products| > 0 && nowMs <= untilMs
    ensures var s := Start(products, nowMs);
            var all := s.checks + Advance(s.timer, untilMs).checks;
            && |all| == (untilMs - nowMs) / CheckIntervalMs + 1
            && forall k :: 0 <= k < |all| ==> all[k] == nowMs + k * CheckIntervalMs
  {
    var s := Start(products, nowMs);
    var later := Advance(s.timer, untilMs);
    var all := s.checks + later.checks;
    var n := |later.checks|;
    AdvanceTimes(s.timer, untilMs);
    assert nowMs + CheckIntervalMs + n * CheckIntervalMs > untilMs;
    assert n > 0 ==> later.checks[n - 1] <= untilMs;
    assert nowMs + n * CheckIntervalMs <= untilMs;
    assert |all| == n + 1;
    DivisionBracket(untilMs - nowMs, n);
  }

  /** Pins down integer division by the interval from a bracket. */
  lemma DivisionBracket(x: int, n: int)
    requires 0 <= x && n * CheckIntervalMs <= x < (n + 1) * CheckIntervalMs
    ensures x / CheckIntervalMs == n
  {
  }

  /** Once the effect is cleaned up, no new check starts, so no new pass dispatches anything. */
  lemma CleanupSilences(parse: DateParser, products: seq<Product>, timer: Timer, untilMs: int)
    ensures Advance(Cleanup(timer), untilMs).checks == []
    ensures DispatchesAt(parse, products, Advance(Cleanup(timer), untilMs).checks) == []
  {
  }

  /** Date parser of the worked example below: one known date, seven days after time 0. */
  function ExampleDates(s: string): Option<int>
  {
    if s == "2024-01-08" then Some(7 * MsPerDay) else None
  }

  /** Worked example: "Milk" expiring seven days after mounting, reminded one
      week before by email. The immediate pass and the pass an hour later both
      send the same reminder with seven days left: nothing deduplicates. */
  lemma MilkExample()
    ensures var milk := Product(1, "Milk", "2024-01-08", Email, "1_week_before", Some("me@example.com"), None);
            var start := Start([milk], 0);
            var checks := start.checks + Advance(start.timer, CheckIntervalMs).checks;
            var reminder := Dispatch(Email, NotificationData("Milk", "2024-01-08", 7, Some("me@example.com"), None));
            checks == [0, CheckIntervalMs]
            && DispatchesAt(ExampleDates, [milk], checks) == [reminder, reminder]
  {
    var milk := Product(1, "Milk", "2024-01-08", Email, "1_week_before", Some("me@example.com"), None);
    var start := Start([milk], 0);
    var later := Advance(start.timer, CheckIntervalMs);
    assert later.checks == [CheckIntervalMs];
    var checks := start.checks + later.checks;
    CeilDaysUnique(7 * MsPerDay, 7);
    CeilDaysUnique(7 * MsPerDay - CheckIntervalMs, 7);
    var reminder := Dispatch(Email, NotificationData("Milk", "2024-01-08", 7, Some("me@example.com"), None));
    assert DaysLeft(0, ExampleDates, milk) == Days(7);
    assert DaysLeft(CheckIntervalMs, ExampleDates, milk) == Days(7);
    assert Evaluate(0, ExampleDates, milk) == Some(reminder);
    assert Evaluate(CheckIntervalMs, ExampleDates, milk) == Some(reminder);
    PassSingle(0, ExampleDates, milk);
    PassSingle(CheckIntervalMs, ExampleDates, milk);
    assert checks[1..] == [CheckIntervalMs];
    assert checks[1..][1..] == [];
    assert DispatchesAt(ExampleDates, [milk], checks[1..]) == [reminder];
    assert DispatchesAt(ExampleDates, [milk], checks) == [reminder] + [reminder];
  }

  /** A reminder is not sent once per day but once per check: with a whole
      number of days to go at `nowMs`, a product due then is due at every hourly
      check for the next 24 hours, and at none of the 24 after that. */
  lemma DueAtEveryCheckOfTheDay(parse: DateParser, p: Product, nowMs: int, days: int, k: int)
    requires parse(p.expiryDate) == Some(nowMs + days * MsPerDay)
    requires Eligible(nowMs, parse, p)
    requires 0 <= k < 48
    ensures Eligible(nowMs + k * CheckIntervalMs, parse, p) <==> k < 24
  {
    var t := nowMs + k * CheckIntervalMs;
    var diff := nowMs + days * MsPerDay - t;
    WholeDays(nowMs, days);
    if k < 24 {
      CeilDaysUnique(diff, days);
      assert DaysLeft(t, parse, p) == DaysLeft(nowMs, parse, p);
    } else {
      CeilDaysUnique(diff, days - 1);
      assert DaysLeft(t, parse, p) == Days(days - 1);
      if Eligible(t, parse, p) {
        Evaluator.FiresOnAtMostOneDay(p.frequency, Days(days), Days(days - 1));
      }
    }
  }
}
