/** Revenue reports: an operator's figures and the confirmed days of a period, as one chain segment. */
module Reports {
  import opened Decimals
  import opened Wrappers
  import opened HashChain
  import opened TelemetryStore
  import opened TelemetryProtocol
  import opened TelemetrySafety
  import opened TelemetryTheorems
  import Dates

  /** A report covers at most a month. */
  const MAX_REPORT_DAYS: nat := 31
  const U64_MAX: nat := 0xFFFF_FFFF_FFFF_FFFF

  /** What the operator states; `proceeds` of the car's sale are 0 in a regular report. */
  datatype ReportInput = ReportInput(start: Date, end: Date, maintenance: seq<nat>, insurance: seq<nat>, proceeds: nat)

  datatype Report = Report(
    start: Date, end: Date, rent: nat, parkFee: nat, maintenance: nat, insurance: nat, distributable: int, gross: nat,
    firstPosition: nat, lastPosition: nat, headBefore: Hash, headAfter: Hash, days: seq<Entry>)

  datatype BuildError = ChainDiverged | MissingDays(dates: seq<Date>) | DoesNotFit

  datatype BuildResult = Built(report: Report) | Refused(error: BuildError)

  function Total(amounts: seq<nat>): nat {
    if amounts == [] then 0 else Total(amounts[..|amounts| - 1]) + amounts[|amounts| - 1]
  }

  /** Rent charged on the days, whole KZT. */
  function Rent(rentOf: Date -> nat, days: seq<Date>): nat {
    if days == [] then 0 else Rent(rentOf, days[..|days| - 1]) + rentOf(days[|days| - 1])
  }

  /** What is left for the holders after the park's fee and the expenses, with the proceeds of a sale; whole KZT. */
  function Distributable(rentOf: Date -> nat, feeBps: nat, input: ReportInput, days: seq<Date>): int {
    Rent(rentOf, days) - Rent(rentOf, days) * feeBps / 10_000 - Total(input.maintenance) - Total(input.insurance) + input.proceeds
  }

  /** The deposit it asks for, in base units; a month at a loss asks for none. */
  function Gross(rentOf: Date -> nat, feeBps: nat, decimals: nat, input: ReportInput, days: seq<Date>): nat {
    var left := Distributable(rentOf, feeBps, input, days);
    if left > 0 then left * Pow10(decimals) else 0
  }

  predicate ValidInput(input: ReportInput) {
    && Dates.IsDateNumber(input.start) && Dates.IsDateNumber(input.end)
    && 1 <= Dates.Count(input.start, input.end) <= MAX_REPORT_DAYS
  }

  /** `dates` are the calendar days from `start` to `end`, in order. */
  ghost predicate CalendarDays(start: Date, end: Date, dates: seq<Date>)
    requires Dates.IsDateNumber(start) && Dates.IsDateNumber(end)
  {
    && |dates| == Dates.Count(start, end)
    && (forall k :: 0 <= k < |dates| ==> Dates.IsDateNumber(dates[k]) && Dates.DayOf(dates[k]) == Dates.DayOf(start) + k)
    && (forall d: nat :: d in dates <==> Dates.IsDateNumber(d) && start <= d <= end)
    && (forall i, j :: 0 <= i < j < |dates| ==> dates[i] < dates[j])
  }

  /** What `build` makes of confirmed days. */
  ghost predicate ReportOf(t: Tables, rentOf: Date -> nat, feeBps: nat, decimals: nat, input: ReportInput, dates: seq<Date>, r: Report) {
    && dates != [] && (forall k :: 0 <= k < |dates| ==> t.IsConfirmed(dates[k]))
    && r.start == input.start && r.end == input.end
    && |r.days| == |dates| && (forall k :: 0 <= k < |dates| ==> r.days[k] == Entry(dates[k], t.days[dates[k]].dataHash))
    && r.firstPosition == t.days[dates[0]].link.value.position && r.headBefore == t.days[dates[0]].link.value.headBefore
    && r.lastPosition == t.days[dates[|dates| - 1]].link.value.position && r.headAfter == t.days[dates[|dates| - 1]].link.value.headAfter
    // every tenge that came in is distributed, kept as the park's fee, or spent
    && r.rent == Rent(rentOf, dates) && r.parkFee == r.rent * feeBps / 10_000
    && r.maintenance == Total(input.maintenance) && r.insurance == Total(input.insurance)
    && r.distributable + r.parkFee + r.maintenance + r.insurance == r.rent + input.proceeds
    && r.gross == (if r.distributable > 0 then r.distributable * Pow10(decimals) else 0) <= U64_MAX
  }

  class ReportsService {
    const store: Store
    const rentOf: Date -> nat // stored with each day, and as unchanging as its hash
    const feeBps: nat
    const decimals: nat

    constructor (store: Store, rentOf: Date -> nat, feeBps: nat, decimals: nat)
      ensures this.store == store && this.rentOf == rentOf && this.feeBps == feeBps && this.decimals == decimals
    {
      this.store, this.rentOf, this.feeBps, this.decimals := store, rentOf, feeBps, decimals;
    }

    /**
     * Builds the report. Every day of the period must be published and confirmed in the
     * project's telemetry chain, and the chain must be the one this backend wrote. (The store
     * holds calendar days only, as the collector gives them to it.)
     */
    method Build(input: ReportInput, view: View) returns (result: BuildResult, ghost dates: seq<Date>)
      requires ValidInput(input) && forall d :: d in store.days ==> Dates.IsDateNumber(d)
      ensures CalendarDays(input.start, input.end, dates)
      ensures result.Built? ==> ReportOf(store.State(), rentOf, feeBps, decimals, input, dates, result.report)
      ensures result == Refused(ChainDiverged) <==> view == Diverged
      ensures result.Built? || result == Refused(DoesNotFit) <==>
        view != Diverged && forall k :: 0 <= k < |dates| ==> store.State().IsConfirmed(dates[k])
      ensures result == Refused(DoesNotFit) <==>
        && view != Diverged && (forall k :: 0 <= k < |dates| ==> store.State().IsConfirmed(dates[k]))
        && Gross(rentOf, feeBps, decimals, input, dates) > U64_MAX
      ensures result.Refused? && result.error.MissingDays? ==>
        forall d :: d in result.error.dates <==> d in dates && !store.State().IsConfirmed(d)
    {
      hide Dates.IsDateNumber, Dates.DayOf;
      var calendar := Dates.EachDay(input.start, input.end);
      dates := calendar;
      if view == Diverged {
        return Refused(ChainDiverged), dates;
      }
      var stored := store.DaysBetween(input.start, input.end, MAX_REPORT_DAYS);
      forall d | d in calendar && d in store.days ensures d in stored {
        LimitCutsNothing(store.Listed(input.start, input.end), stored, calendar, MAX_REPORT_DAYS, d);
      }
      var days, missing := SplitDays(calendar, stored);
      if missing != [] {
        assert missing[0] in missing;
        return Refused(MissingDays(missing)), dates;
      }
      assert forall k :: 0 <= k < |days| ==> days[k] in days;
      var report := BuildReport(input, days);
      result := if report.Some? then Built(report.value) else Refused(DoesNotFit);
    }

    method SplitDays(calendar: seq<Date>, stored: seq<Date>) returns (days: seq<Date>, missing: seq<Date>)
      requires forall d :: d in stored ==> d in store.days
      requires forall d :: d in calendar && d in store.days ==> d in stored
      ensures missing == [] ==> days == calendar
      ensures forall d :: d in days ==> store.State().IsConfirmed(d)
      ensures forall d :: d in missing <==> d in calendar && !store.State().IsConfirmed(d)
    {
      days, missing := [], [];
      for k := 0 to |calendar|
        invariant missing == [] ==> days == calendar[..k]
        invariant forall d :: d in days ==> store.State().IsConfirmed(d)
        invariant forall d :: d in missing <==> d in calendar[..k] && !store.State().IsConfirmed(d)
      {
        var date := calendar[k];
        assert date in calendar;
        assert calendar[..k + 1] == calendar[..k] + [date];
        if date in stored && store.days[date].link.Some? && store.days[date].confirmedAt.Some? {
          days := days + [date];
        } else {
          missing := missing + [date];
        }
      }
      assert calendar[..|calendar|] == calendar;
    }

    method BuildReport(input: ReportInput, days: seq<Date>) returns (report: Option<Report>)
      requires days != [] && forall k :: 0 <= k < |days| ==> store.State().IsConfirmed(days[k])
      ensures report.Some? ==> ReportOf(store.State(), rentOf, feeBps, decimals, input, days, report.value)
      ensures report.None? <==> Gross(rentOf, feeBps, decimals, input, days) > U64_MAX
    {
      var rent, listed := ListDays(days);
      var parkFee := rent * feeBps / 10_000;
      var maintenance, insurance := Total(input.maintenance), Total(input.insurance);
      var distributable := rent - parkFee - maintenance - insurance + input.proceeds;
      var gross := if distributable > 0 then distributable * Pow10(decimals) else 0;
      hide Rent, Total, Pow10;
      if gross > U64_MAX {
        return None;
      }
      var first, last := store.days[days[0]].link.value, store.days[days[|days| - 1]].link.value;
      report := Some(Report(input.start, input.end, rent, parkFee, maintenance, insurance, distributable, gross,
                            first.position, last.position, first.headBefore, last.headAfter, listed));
    }

    /** The days as the report lists them, and the rent charged on them. */
    method ListDays(days: seq<Date>) returns (rent: nat, listed: seq<Entry>)
      requires forall k :: 0 <= k < |days| ==> days[k] in store.days
      ensures rent == Rent(rentOf, days) && |listed| == |days|
      ensures forall k :: 0 <= k < |days| ==> listed[k] == Entry(days[k], store.State().days[days[k]].dataHash)
    {
      rent, listed := 0, [];
      for k := 0 to |days|
        invariant rent == Rent(rentOf, days[..k])
        invariant |listed| == k && forall j :: 0 <= j < k ==> listed[j] == Entry(days[j], store.State().days[days[j]].dataHash)
      {
        assert days[..k + 1][..k] == days[..k];
        rent := rent + rentOf(days[k]);
        listed := listed + [Entry(days[k], store.days[days[k]].dataHash)];
      }
      assert days[..|days|] == days;
    }
  }

  // ---- what the amounts of a report are ----

  /** Without items nothing is spent. */
  lemma {:induction false} NoExpenses(t: Tables, rentOf: Date -> nat, feeBps: nat, decimals: nat, input: ReportInput, dates: seq<Date>, r: Report)
    requires ReportOf(t, rentOf, feeBps, decimals, input, dates, r)
    ensures input.maintenance == [] ==> r.maintenance == 0
    ensures input.insurance == [] ==> r.insurance == 0
    ensures input.maintenance == input.insurance == [] ==> r.distributable == r.rent - r.parkFee + input.proceeds
  {}

  /** One more expense is in its total and taken from what is distributed, and changes nothing else. */
  lemma {:induction false} ExpensesCountOnce(t: Tables, rentOf: Date -> nat, feeBps: nat, decimals: nat, input: ReportInput, x: nat,
                                             dates: seq<Date>, r: Report, s: Report)
    requires ReportOf(t, rentOf, feeBps, decimals, input, dates, r)
    ensures ReportOf(t, rentOf, feeBps, decimals, input.(maintenance := input.maintenance + [x]), dates, s) ==>
      s.maintenance == r.maintenance + x && s.insurance == r.insurance && s.rent == r.rent && s.distributable == r.distributable - x
    ensures ReportOf(t, rentOf, feeBps, decimals, input.(insurance := input.insurance + [x]), dates, s) ==>
      s.insurance == r.insurance + x && s.maintenance == r.maintenance && s.rent == r.rent && s.distributable == r.distributable - x
    ensures ReportOf(t, rentOf, feeBps, decimals, input.(proceeds := input.proceeds + x), dates, s) ==>
      s.distributable == r.distributable + x && s.maintenance == r.maintenance && s.insurance == r.insurance && s.rent == r.rent
  {
    assert (input.maintenance + [x])[..|input.maintenance|] == input.maintenance;
    assert (input.insurance + [x])[..|input.insurance|] == input.insurance;
  }

  /** One more day adds its rent; a report of a single day has that day's. */
  lemma {:induction false} RentCountsEveryDay(t: Tables, rentOf: Date -> nat, feeBps: nat, decimals: nat, input: ReportInput, other: ReportInput,
                                              dates: seq<Date>, d: Date, r: Report)
    requires ReportOf(t, rentOf, feeBps, decimals, input, dates + [d], r)
    ensures dates == [] ==> r.rent == rentOf(d)
    ensures forall s :: ReportOf(t, rentOf, feeBps, decimals, other, dates, s) ==> r.rent == s.rent + rentOf(d)
  {
    assert (dates + [d])[..|dates|] == dates;
    assert Rent(rentOf, dates + [d]) == Rent(rentOf, dates) + rentOf(d);
  }

  /** The park's fee is its part of the rent, rounded down, and the deposit asked for is what is left, or nothing of a loss. */
  lemma {:induction false} AmountsAreShares(t: Tables, rentOf: Date -> nat, feeBps: nat, decimals: nat, input: ReportInput, dates: seq<Date>, r: Report)
    requires ReportOf(t, rentOf, feeBps, decimals, input, dates, r)
    ensures 10_000 * r.parkFee <= r.rent * feeBps < 10_000 * (r.parkFee + 1)
    ensures r.gross == 0 <==> r.distributable <= 0
    ensures decimals == 0 && r.distributable > 0 ==> r.gross == r.distributable
    ensures forall s :: r.distributable > 0 && ReportOf(t, rentOf, feeBps, decimals + 1, input, dates, s) ==> s.gross == 10 * r.gross
  {
    Pow10IsPositive(decimals);
    TenTimes(r.distributable, Pow10(decimals));
    hide Rent, Total;
  }

  lemma {:induction false} TenTimes(x: int, y: nat)
    ensures x * (10 * y) == 10 * (x * y) && (x > 0 && y > 0 ==> x * y > 0)
  {}

  /** A period runs forwards over at most 31 days. */
  lemma {:induction false} ValidInputIff(input: ReportInput)
    ensures ValidInput(input) <==>
      && Dates.IsDateNumber(input.start) && Dates.IsDateNumber(input.end)
      && input.start <= input.end && Dates.DayOf(input.end) - Dates.DayOf(input.start) <= 30
  {
    hide Dates.IsDateNumber, Dates.DayOf;
    if Dates.IsDateNumber(input.start) && Dates.IsDateNumber(input.end) {
      Dates.DatesInOrder(input.end, input.start);
    }
  }

  /** Of confirmed days an amount is refused exactly when no report of them could state its deposit. */
  lemma {:induction false} FitsIffReportExists(t: Tables, rentOf: Date -> nat, feeBps: nat, decimals: nat, input: ReportInput, dates: seq<Date>)
    requires dates != [] && forall k :: 0 <= k < |dates| ==> t.IsConfirmed(dates[k])
    ensures (exists r :: ReportOf(t, rentOf, feeBps, decimals, input, dates, r)) <==> Gross(rentOf, feeBps, decimals, input, dates) <= U64_MAX
    ensures forall r :: ReportOf(t, rentOf, feeBps, decimals, input, dates, r) ==> r.gross == Gross(rentOf, feeBps, decimals, input, dates)
  {
    if Gross(rentOf, feeBps, decimals, input, dates) <= U64_MAX {
      var first, last := t.days[dates[0]].link.value, t.days[dates[|dates| - 1]].link.value;
      var rent := Rent(rentOf, dates);
      var days := seq(|dates|, k requires 0 <= k < |dates| => Entry(dates[k], t.days[dates[k]].dataHash));
      var r := Report(input.start, input.end, rent, rent * feeBps / 10_000, Total(input.maintenance), Total(input.insurance),
                      Distributable(rentOf, feeBps, input, dates), Gross(rentOf, feeBps, decimals, input, dates),
                      first.position, last.position, first.headBefore, last.headAfter, days);
      hide Rent, Total, Pow10;
      assert ReportOf(t, rentOf, feeBps, decimals, input, dates, r);
    }
  }

  /** No more days are stored between two dates than the calendar has. */
  lemma {:induction false} LimitCutsNothing(listed: set<Date>, stored: seq<Date>, calendar: seq<Date>, limit: nat, date: Date)
    requires SortedDates(stored) && (forall d :: d in stored ==> d in calendar) && |calendar| <= limit
    requires |stored| < limit ==> forall d :: d in listed ==> d in stored
    requires date in listed && date in calendar && |stored| <= limit
    ensures date in stored
  {
    if date !in stored {
      SetOfSorted(stored);
      assert |SetOf(stored) + {date}| == |stored| + 1;
      Subset(SetOf(stored) + {date}, SetOf(calendar));
    }
  }

  lemma {:induction false} Subset(a: set<Date>, b: set<Date>)
    requires a <= b
    ensures |a| <= |b|
  {
    if a != {} {
      var x :| x in a;
      Subset(a - {x}, b - {x});
    }
  }

  function SetOf(dates: seq<Date>): (r: set<Date>)
    ensures forall d :: d in r <==> d in dates
    ensures |r| <= |dates|
  {
    if dates == [] then {} else SetOf(dates[..|dates| - 1]) + {dates[|dates| - 1]}
  }

  lemma {:induction false} SetOfSorted(dates: seq<Date>)
    requires SortedDates(dates)
    ensures |SetOf(dates)| == |dates|
  {
    if dates != [] {
      SetOfSorted(dates[..|dates| - 1]);
      assert dates[|dates| - 1] !in dates[..|dates| - 1];
    }
  }

  // ---- a report is a segment of the chain ----

  ghost predicate RealDays(entries: seq<Entry>) {
    forall i :: 0 <= i < |entries| ==> Dates.IsDateNumber(entries[i].date)
  }

  /** The program takes real calendar days only. */
  lemma {:induction false} ChainHoldsRealDays(step: ChainStep, s: System, run: seq<Action>)
    requires Initial(s)
    ensures RealDays(DoAll(step, s, run).chain.entries)
  {
    if run != [] {
      ChainHoldsRealDays(step, s, run[..|run| - 1]);
      StepKeepsRealDays(step, DoAll(step, s, run[..|run| - 1]), run[|run| - 1]);
    }
  }

  lemma {:induction false} StepKeepsRealDays(step: ChainStep, s: System, a: Action)
    requires RealDays(s.chain.entries)
    ensures RealDays(Do(step, s, a).chain.entries)
  {
    hide Dates.IsDateNumber, TipOf, Reconciled, UnsubmittedDays;
    if a.Network? {
      var d := DoMove(step, s.chain, a.move);
      if d.entries != s.chain.entries {
        assert a.move.Land? && Accepts(step, s.chain, s.chain.txs[a.move.signature].entries);
      }
    }
  }

  /** Consecutive calendar days that are all confirmed stand next to each other in the chain. */
  lemma {:induction false} Consecutive(all: seq<Entry>, n: nat, after: Date, places: seq<nat>, dates: seq<Date>)
    requires n <= |all| && Ascending(after, all) && RealDays(all[..n]) && |places| == |dates|
    requires forall k :: 0 <= k < |dates| ==> places[k] < n && all[places[k]].date == dates[k] && Dates.IsDateNumber(dates[k])
    requires forall k :: 0 <= k < |dates| ==> Dates.DayOf(dates[k]) == Dates.DayOf(dates[0]) + k
    ensures forall k :: 0 <= k < |dates| ==> places[k] == places[0] + k
  {
    hide Dates.IsDateNumber, Dates.DayOf;
    if |dates| > 1 {
      var k := |dates| - 2;
      Consecutive(all, n, after, places[..k + 1], dates[..k + 1]);
      assert forall j :: 0 <= j <= k ==> places[j] == places[..k + 1][j];
      Neighbours(all, n, after, places[k], places[k + 1]);
    }
  }

  lemma {:induction false} Neighbours(all: seq<Entry>, n: nat, after: Date, here: nat, next: nat)
    requires n <= |all| && Ascending(after, all) && RealDays(all[..n]) && here < n && next < n
    requires Dates.IsDateNumber(all[here].date) && Dates.IsDateNumber(all[next].date)
    requires Dates.DayOf(all[next].date) == Dates.DayOf(all[here].date) + 1
    ensures next == here + 1
  {
    hide Dates.IsDateNumber, Dates.DayOf;
    Dates.DatesInOrder(all[here].date, all[next].date);
    assert forall i :: 0 <= i < here ==> all[i].date < all[here].date;
    assert here < next;
    assert all[..n][here + 1] == all[here + 1];
    Dates.DatesInOrder(all[here].date, all[here + 1].date);
    Dates.DatesInOrder(all[here + 1].date, all[next].date);
  }

  lemma {:induction false} ConfirmedPlaces(step: ChainStep, base: Tip, t: Tables, all: seq<Entry>, n: nat, p: Option<Signature>, dates: seq<Date>)
    returns (places: seq<nat>)
    requires Books(step, base, t, all, n, p) && forall k :: 0 <= k < |dates| ==> t.IsConfirmed(dates[k])
    ensures |places| == |dates|
    ensures forall k :: 0 <= k < |dates| ==> places[k] < n && all[places[k]].date == dates[k] && RowAt(step, base, t, all, n, p, places[k])
  {
    hide Head;
    places := [];
    for k := 0 to |dates|
      invariant |places| == k
      invariant forall j :: 0 <= j < k ==> places[j] < n && all[places[j]].date == dates[j] && RowAt(step, base, t, all, n, p, places[j])
    {
      assert t.IsConfirmed(dates[k]);
      var i :| 0 <= i < |all| && all[i].date == dates[k];
      assert RowAt(step, base, t, all, n, p, i);
      places := places + [i];
    }
  }

  /**
   * In every reachable state, a report lists exactly the calendar days of its period, at
   * consecutive chain positions, as the chain holds them, and folding the chain step over its
   * days from `headBefore` gives `headAfter`.
   */
  lemma {:induction false} ReportIsAChainSegment(step: ChainStep, s: System, run: seq<Action>, rentOf: Date -> nat, feeBps: nat, decimals: nat,
                              input: ReportInput, dates: seq<Date>, r: Report)
    requires Initial(s) && HonestRun(step, s, run) && ValidInput(input) && CalendarDays(input.start, input.end, dates)
    requires ReportOf(DoAll(step, s, run).store, rentOf, feeBps, decimals, input, dates, r)
    ensures |r.days| == Dates.Count(input.start, input.end)
    ensures forall k :: 0 <= k < |r.days| ==> Dates.IsDateNumber(r.days[k].date) && Dates.DayOf(r.days[k].date) == Dates.DayOf(input.start) + k
    ensures r.lastPosition == r.firstPosition + |r.days| - 1
    ensures Head(step, r.headBefore, r.days) == r.headAfter
    ensures var c := DoAll(step, s, run).chain;
      && c.base.count < r.firstPosition && r.lastPosition <= c.base.count + |c.entries|
      && r.days == c.entries[r.firstPosition - c.base.count - 1..r.lastPosition - c.base.count]
  {
    hide Dates.IsDateNumber, Dates.DayOf, Dates.Count, DoAll, Head, Books;
    var sys := DoAll(step, s, run);
    var all, n, p := ChainIsTheStore(step, s, run);
    ChainHoldsRealDays(step, s, run);
    Known(step, sys.chain.base, sys.store, all, n, p);
    assert all[..n] == sys.chain.entries[..n];
    var first := PlaceOfSegment(step, sys.chain.base, sys.store, all, n, p, dates);
    SegmentFolds(step, sys.chain.base, sys.store, all, n, p, dates, first);
    var top := first + |dates|;
    assert r.days == all[first..top];
    assert sys.chain.entries[first..top] == all[first..top];
  }

  lemma {:induction false} Known(step: ChainStep, base: Tip, t: Tables, all: seq<Entry>, n: nat, p: Option<Signature>)
    requires Books(step, base, t, all, n, p)
    ensures n <= |all|
  {}

  /** Where the days of a period begin in the chain. */
  lemma {:induction false} PlaceOfSegment(step: ChainStep, base: Tip, t: Tables, all: seq<Entry>, n: nat, p: Option<Signature>, dates: seq<Date>)
    returns (first: nat)
    requires Books(step, base, t, all, n, p) && n <= |all| && RealDays(all[..n]) && dates != []
    requires forall k :: 0 <= k < |dates| ==> t.IsConfirmed(dates[k]) && Dates.IsDateNumber(dates[k])
    requires forall k :: 0 <= k < |dates| ==> Dates.DayOf(dates[k]) == Dates.DayOf(dates[0]) + k
    ensures first + |dates| <= n
    ensures forall k :: 0 <= k < |dates| ==> all[first + k].date == dates[k]
  {
    hide Dates.IsDateNumber, Dates.DayOf, Head;
    var places := ConfirmedPlaces(step, base, t, all, n, p, dates);
    Consecutive(all, n, base.lastDate, places, dates);
    first := places[0];
    assert places[|dates| - 1] == first + |dates| - 1;
  }

  /** Days that stand together in the chain: their rows say where, and their heads fold. */
  lemma {:induction false} SegmentFolds(step: ChainStep, base: Tip, t: Tables, all: seq<Entry>, n: nat, p: Option<Signature>, dates: seq<Date>, first: nat)
    requires Books(step, base, t, all, n, p) && first + |dates| <= n <= |all| && dates != []
    requires forall k :: 0 <= k < |dates| ==> t.IsConfirmed(dates[k])
    requires forall k :: 0 <= k < |dates| ==> all[first + k].date == dates[k]
    ensures forall k :: 0 <= k < |dates| ==> t.IsConfirmed(dates[k]) && all[first + k] == Entry(dates[k], t.days[dates[k]].dataHash)
    ensures t.IsConfirmed(dates[0]) && t.IsConfirmed(dates[|dates| - 1])
    ensures var a, b := t.days[dates[0]].link.value, t.days[dates[|dates| - 1]].link.value;
      && a.position == base.count + first + 1 && b.position == base.count + first + |dates|
      && Head(step, a.headBefore, all[first..first + |dates|]) == b.headAfter
  {
    hide Head;
    var top := first + |dates|;
    assert RowAt(step, base, t, all, n, p, first) && RowAt(step, base, t, all, n, p, top - 1);
    forall k | 0 <= k < |dates| ensures all[first + k] == Entry(dates[k], t.days[dates[k]].dataHash) {
      assert RowAt(step, base, t, all, n, p, first + k);
    }
    assert all[..top] == all[..first] + all[first..top];
    HeadConcat(step, base.head, all[..first], all[first..top]);
  }

  /** The two heads of a report commit to its days: no other list of as many days leads from one to the other. */
  lemma {:induction false} HeadsCommitToDays(step: ChainStep, r: Report, days: seq<Entry>)
    requires CollisionFree(step) && Head(step, r.headBefore, r.days) == r.headAfter
    ensures |days| == |r.days| && Head(step, r.headBefore, days) == r.headAfter <==> days == r.days
  {
    SameHead(step, r.headBefore, days, r.days);
  }
}
