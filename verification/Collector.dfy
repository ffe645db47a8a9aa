/** Collecting the finished days each car is missing, oldest first; a failed day stops its car. */
module Collector {
  import opened Wrappers
  import opened Dates

  /** How far back a run fills in missed days. */
  const MAX_BACKFILL_DAYS: int := 31

  /** A car and the dates stored for it, oldest first. */
  datatype Car = Car(simulated: bool, startDate: Option<Date>, stored: seq<Date>)

  datatype CollectResult = CollectResult(collected: seq<Date>, failedAt: Option<Date>)

  /** What the run meets: `readable` tells whether the fleet answers for a date, `publishable` whether a car's reading can be stored. */
  datatype Weather = Weather(readable: Date -> bool, publishable: (nat, Date) -> bool)

  predicate Succeeds(w: Weather, cars: seq<Car>, i: nat, date: Date)
    requires i < |cars|
  {
    w.publishable(i, date) && (cars[i].simulated || w.readable(date))
  }

  /** The window of a run lies in the calendar's range. */
  predicate ValidRun(yesterday: Date, stored: seq<Date>, startDate: Option<Date>) {
    && IsDateNumber(yesterday) && InRange(DayOf(yesterday) - (MAX_BACKFILL_DAYS - 1))
    && (stored != [] ==> IsDateNumber(stored[|stored| - 1]) && InRange(DayOf(stored[|stored| - 1]) + 1))
    && (startDate.Some? ==> IsDateNumber(startDate.value))
  }

  /** From the day after the last stored one, or the start date, but not further back than the window. */
  function FirstDue(yesterday: Date, stored: seq<Date>, startDate: Option<Date>): (date: Date)
    requires ValidRun(yesterday, stored, startDate)
  {
    var first := if stored != [] then AddDays(stored[|stored| - 1], 1) else if startDate.Some? then startDate.value else yesterday;
    var earliest := AddDays(yesterday, -(MAX_BACKFILL_DAYS - 1));
    if first > earliest then first else earliest
  }

  function Later(a: int, b: int): int { if a > b then a else b }

  lemma {:induction false} FirstDueDay(yesterday: Date, stored: seq<Date>, startDate: Option<Date>)
    requires ValidRun(yesterday, stored, startDate)
    ensures var first := FirstDue(yesterday, stored, startDate);
      && IsDateNumber(first) && DayOf(first) >= DayOf(yesterday) - (MAX_BACKFILL_DAYS - 1)
      && (stored != [] ==> DayOf(first) == Later(DayOf(stored[|stored| - 1]) + 1, DayOf(yesterday) - (MAX_BACKFILL_DAYS - 1)))
  {
    hide DayOf, DateOf, IsDateNumber, InRange;
    DayRoundTrip(DayOf(yesterday) - (MAX_BACKFILL_DAYS - 1));
    var earliest := AddDays(yesterday, -(MAX_BACKFILL_DAYS - 1));
    if stored != [] {
      DayRoundTrip(DayOf(stored[|stored| - 1]) + 1);
      DatesInOrder(earliest, AddDays(stored[|stored| - 1], 1));
    } else {
      DatesInOrder(earliest, if startDate.Some? then startDate.value else yesterday);
    }
  }

  /** What becomes of due days tried in order until one fails. */
  function Collected(w: Weather, cars: seq<Car>, i: nat, due: seq<Date>): CollectResult
    requires i < |cars|
  {
    if due == [] then CollectResult([], None) else
    var before := Collected(w, cars, i, due[..|due| - 1]);
    Saved(w, cars, i, due[|due| - 1], before)
  }

  /** One more day, unless an earlier one failed. */
  function Saved(w: Weather, cars: seq<Car>, i: nat, date: Date, before: CollectResult): CollectResult
    requires i < |cars|
  {
    if before.failedAt.Some? then before
    else if Succeeds(w, cars, i, date) then before.(collected := before.collected + [date])
    else before.(failedAt := Some(date))
  }

  /**
   * Collected days are the due days before the first that fails, and that one is reported. A day
   * fails when its figures cannot be published, or read from the fleet a car belongs to.
   */
  lemma {:induction false} CollectedIsAPrefix(w: Weather, cars: seq<Car>, i: nat, due: seq<Date>)
    requires i < |cars|
    ensures var r := Collected(w, cars, i, due);
      var m := |r.collected|;
      && m <= |due| && r.collected == due[..m]
      && (forall k :: 0 <= k < m ==> w.publishable(i, due[k]) && (cars[i].simulated || w.readable(due[k])))
      && (m < |due| ==> !w.publishable(i, due[m]) || (!cars[i].simulated && !w.readable(due[m])))
      && r.failedAt == (if m < |due| then Some(due[m]) else None)
  {
    if due != [] {
      CollectedIsAPrefix(w, cars, i, due[..|due| - 1]);
      assert due == due[..|due| - 1] + [due[|due| - 1]];
    }
  }

  ghost predicate Ascending(dates: seq<Date>) {
    forall i, j :: 0 <= i < j < |dates| ==> dates[i] < dates[j]
  }

  /** The dates in order, each once. */
  function InsertDate(date: Date, sorted: seq<Date>): (r: seq<Date>)
    requires Ascending(sorted)
    ensures Ascending(r) && forall d :: d in r <==> d == date || d in sorted
  {
    if sorted == [] then [date]
    else if date == sorted[0] then sorted
    else if date < sorted[0] then [date] + sorted
    else
      assert sorted == [sorted[0]] + sorted[1..];
      var rest := InsertDate(date, sorted[1..]);
      assert forall k :: 0 <= k < |rest| ==> rest[k] in rest;
      [sorted[0]] + rest
  }

  class TelemetryCollector {
    var cars: seq<Car>

    constructor (cars: seq<Car>)
      ensures this.cars == cars
    {
      this.cars := cars;
    }

    /** Reads every finished day each car is missing, oldest first, and stores it as published. */
    method CollectAll(yesterday: Date, w: Weather) returns (results: seq<CollectResult>, ghost due: seq<seq<Date>>)
      requires forall i :: 0 <= i < |cars| ==> ValidRun(yesterday, cars[i].stored, cars[i].startDate)
      modifies this
      ensures |old(cars)| == |due| && Kept(old(cars), cars, results)
      ensures forall i :: 0 <= i < |old(cars)| ==>
        IsDue(due[i], yesterday, old(cars)[i]) && results[i] == Collected(w, old(cars), i, due[i])
      ensures forall i, d :: 0 <= i < |old(cars)| ==> (d in due[i] <==> Misses(yesterday, old(cars)[i], d))
    {
      var dues := DueOfAll(yesterday);
      due := dues;
      forall i | 0 <= i < |cars| ensures Ascending(dues[i]) {
        DueAscends(dues[i], yesterday, cars[i]);
      }
      forall i, d | 0 <= i < |cars| ensures d in due[i] <==> Misses(yesterday, cars[i], d) {
        DueIff(due[i], yesterday, cars[i], d);
      }
      hide IsDue, Misses, Ascending, Collected, ValidRun;
      var none: seq<CollectResult> := seq(|cars|, _ => CollectResult([], None));
      ghost var was := cars;
      NothingKept(cars, none);
      results := CollectSimulated(dues, w, none, was);
      results := CollectFleet(dues, w, results, was);
    }

    method DueOfAll(yesterday: Date) returns (dues: seq<seq<Date>>)
      requires forall i :: 0 <= i < |cars| ==> ValidRun(yesterday, cars[i].stored, cars[i].startDate)
      ensures |dues| == |cars| && forall i :: 0 <= i < |cars| ==> IsDue(dues[i], yesterday, cars[i])
    {
      hide DayOf, DateOf, IsDateNumber, InRange, FirstDue;
      dues := [];
      for i := 0 to |cars|
        invariant |dues| == i && forall j :: 0 <= j < i ==> IsDue(dues[j], yesterday, cars[j])
      {
        assert ValidRun(yesterday, cars[i].stored, cars[i].startDate);
        FirstDueDay(yesterday, cars[i].stored, cars[i].startDate);
        var due := EachDay(FirstDue(yesterday, cars[i].stored, cars[i].startDate), yesterday);
        dues := dues + [due];
      }
    }

    /** Stores the day unless an earlier one failed; a reading that cannot be published stops the car, not the run. */
    method Save(w: Weather, i: nat, date: Date, before: seq<CollectResult>, ghost was: seq<Car>) returns (results: seq<CollectResult>)
      requires i < |was| && Kept(was, cars, before) && (was[i].simulated || w.readable(date))
      modifies this
      ensures Kept(was, cars, results) && results == before[i := Saved(w, was, i, date, before[i])]
    {
      results := before;
      if before[i].failedAt.None? {
        if w.publishable(i, date) {
          cars := cars[i := cars[i].(stored := cars[i].stored + [date])];
          results := before[i := before[i].(collected := before[i].collected + [date])];
        } else {
          results := before[i := before[i].(failedAt := Some(date))];
        }
      }
    }

    /** Days of simulated cars need no reading; other cars have collected nothing yet. */
    method CollectSimulated(dues: seq<seq<Date>>, w: Weather, none: seq<CollectResult>, ghost was: seq<Car>) returns (results: seq<CollectResult>)
      requires |dues| == |was| && Kept(was, cars, none) && forall i :: 0 <= i < |none| ==> none[i] == CollectResult([], None)
      modifies this
      ensures Kept(was, cars, results)
      ensures forall i :: 0 <= i < |was| ==> results[i] == Collected(w, was, i, if was[i].simulated then dues[i] else [])
    {
      results := none;
      for i := 0 to |cars|
        invariant Kept(was, cars, results)
        invariant forall j :: 0 <= j < i ==> results[j] == Collected(w, was, j, if was[j].simulated then dues[j] else [])
        invariant forall j :: i <= j < |was| ==> results[j] == none[j]
      {
        if cars[i].simulated {
          ghost var before := results;
          for k := 0 to |dues[i]|
            invariant Kept(was, cars, results) && results == before[i := Collected(w, was, i, dues[i][..k])]
          {
            assert dues[i][..k + 1][..k] == dues[i][..k];
            results := Save(w, i, dues[i][k], results, was);
          }
          assert dues[i][..|dues[i]|] == dues[i];
        }
      }
    }

    /** Days of fleet cars, date by date: one reading for all cars that still want that date. */
    method CollectFleet(dues: seq<seq<Date>>, w: Weather, before: seq<CollectResult>, ghost was: seq<Car>) returns (results: seq<CollectResult>)
      requires |dues| == |was| && Kept(was, cars, before) && forall i :: 0 <= i < |was| ==> Ascending(dues[i])
      requires forall i :: 0 <= i < |was| ==> before[i] == Collected(w, was, i, if was[i].simulated then dues[i] else [])
      modifies this
      ensures Kept(was, cars, results)
      ensures forall i :: 0 <= i < |was| ==> results[i] == Collected(w, was, i, dues[i])
    {
      results := before;
      var dates := FleetDates(dues);
      ghost var done: seq<nat> := seq(|cars|, _ => 0);
      for k := 0 to |dates|
        invariant Kept(was, cars, results) && |done| == |was|
        invariant forall i :: 0 <= i < |was| && was[i].simulated ==> results[i] == Collected(w, was, i, dues[i])
        invariant forall i :: 0 <= i < |was| && !was[i].simulated ==> TriedUpTo(dues[i], dates[..k], done[i])
        invariant forall i :: 0 <= i < |was| && !was[i].simulated ==> After(w, was, i, dues[i], done[i], results[i])
      {
        results, done := CollectDate(dues, w, results, dates, k, done, was);
      }
      assert dates[..|dates|] == dates;
      forall i | 0 <= i < |was| && !was[i].simulated ensures results[i] == Collected(w, was, i, dues[i]) {
        AllTried(dues[i], dates, done[i]);
      }
    }

    /** One date for every fleet car it is due for and that has not failed. */
    method CollectDate(dues: seq<seq<Date>>, w: Weather, before: seq<CollectResult>, dates: seq<Date>, k: nat,
                       ghost done: seq<nat>, ghost was: seq<Car>)
      returns (results: seq<CollectResult>, ghost done': seq<nat>)
      requires |dues| == |was| == |done| && Kept(was, cars, before) && k < |dates| && Ascending(dates)
      requires forall i :: 0 <= i < |was| ==> Ascending(dues[i])
      requires forall i :: 0 <= i < |was| && !was[i].simulated ==> TriedUpTo(dues[i], dates[..k], done[i]) && forall d :: d in dues[i] ==> d in dates
      requires forall i :: 0 <= i < |was| && !was[i].simulated ==> After(w, was, i, dues[i], done[i], before[i])
      modifies this
      ensures Kept(was, cars, results) && |done'| == |was|
      ensures forall i :: 0 <= i < |was| && was[i].simulated ==> results[i] == before[i]
      ensures forall i :: 0 <= i < |was| && !was[i].simulated ==> TriedUpTo(dues[i], dates[..k + 1], done'[i])
      ensures forall i :: 0 <= i < |was| && !was[i].simulated ==> After(w, was, i, dues[i], done'[i], results[i])
    {
      hide TriedUpTo, Ascending;
      results, done' := before, done;
      var date := dates[k];
      for i := 0 to |cars|
        invariant Kept(was, cars, results) && |done'| == |was|
        invariant forall j :: i <= j < |was| ==> results[j] == before[j] && done'[j] == done[j]
        invariant forall j :: 0 <= j < i && was[j].simulated ==> results[j] == before[j]
        invariant forall j :: 0 <= j < i && !was[j].simulated ==> TriedUpTo(dues[j], dates[..k + 1], done'[j])
        invariant forall j :: 0 <= j < i && !was[j].simulated ==> After(w, was, j, dues[j], done'[j], results[j])
      {
        if !cars[i].simulated {
          NextTried(dues[i], dates, k, done[i]);
          if date in dues[i] {
            if results[i].failedAt.None? {
              if w.readable(date) {
                results := Save(w, i, date, results, was);
              } else {
                // a failed reading fails the date for every car that asked for it
                results := results[i := results[i].(failedAt := Some(date))];
              }
            }
            assert dues[i][..done[i] + 1][..done[i]] == dues[i][..done[i]];
            done' := done'[i := done[i] + 1];
          }
        }
      }
    }

    /** Every date some fleet car is due for, in order. */
    method FleetDates(dues: seq<seq<Date>>) returns (dates: seq<Date>)
      requires |dues| == |cars|
      ensures Ascending(dates)
      ensures forall i, d :: 0 <= i < |cars| && !cars[i].simulated && d in dues[i] ==> d in dates
    {
      dates := [];
      for i := 0 to |cars|
        invariant Ascending(dates)
        invariant forall j, d :: 0 <= j < i && !cars[j].simulated && d in dues[j] ==> d in dates
      {
        if !cars[i].simulated {
          for k := 0 to |dues[i]|
            invariant Ascending(dates)
            invariant forall j, d :: 0 <= j < i && !cars[j].simulated && d in dues[j] ==> d in dates
            invariant forall j :: 0 <= j < k ==> dues[i][j] in dates
          {
            dates := InsertDate(dues[i][k], dates);
          }
        }
      }
    }
  }

  /** Every car holds what it held before and the days it collected. */
  predicate Kept(was: seq<Car>, cars: seq<Car>, results: seq<CollectResult>) {
    && |was| == |cars| == |results|
    && forall i :: 0 <= i < |was| ==> cars[i] == was[i].(stored := was[i].stored + results[i].collected)
  }

  lemma {:induction false} NothingKept(cars: seq<Car>, none: seq<CollectResult>)
    requires |none| == |cars| && forall i :: 0 <= i < |none| ==> none[i].collected == []
    ensures Kept(cars, cars, none)
  {
    assert forall i :: 0 <= i < |cars| ==> cars[i].stored + [] == cars[i].stored;
  }

  /** The calendar days from the first due day to yesterday. */
  ghost predicate IsDue(due: seq<Date>, yesterday: Date, car: Car)
    requires ValidRun(yesterday, car.stored, car.startDate)
  {
    FirstDueDay(yesterday, car.stored, car.startDate);
    var first := FirstDue(yesterday, car.stored, car.startDate);
    && |due| == Count(first, yesterday) && Ascending(due)
    && forall k :: 0 <= k < |due| ==> IsDateNumber(due[k]) && DayOf(due[k]) == DayOf(first) + k
  }

  /** The car lacks the day and a run the day after `yesterday` may still read it. */
  predicate Misses(yesterday: Date, car: Car, d: Date) {
    && IsDateNumber(yesterday) && IsDateNumber(d) && d <= yesterday && DayOf(yesterday) - DayOf(d) <= MAX_BACKFILL_DAYS - 1
    && (if car.stored != [] then car.stored[|car.stored| - 1] < d
        else if car.startDate.Some? then car.startDate.value <= d
        else d == yesterday)
  }

  /**
   * The days a car is due for: those up to yesterday, none older than the window, after the last
   * one stored; with nothing stored, from its start date on, and without one only yesterday.
   */
  lemma {:induction false} DueIff(due: seq<Date>, yesterday: Date, car: Car, d: Date)
    requires ValidRun(yesterday, car.stored, car.startDate) && IsDue(due, yesterday, car)
    ensures d in due <==> Misses(yesterday, car, d)
  {
    hide DayOf, DateOf, IsDateNumber, InRange;
    FirstDueDay(yesterday, car.stored, car.startDate);
    Listed(FirstDue(yesterday, car.stored, car.startDate), yesterday, due);
    DayRoundTrip(DayOf(yesterday) - (MAX_BACKFILL_DAYS - 1));
    if IsDateNumber(d) {
      DatesInOrder(d, AddDays(yesterday, -(MAX_BACKFILL_DAYS - 1)));
      if car.stored != [] {
        var last := car.stored[|car.stored| - 1];
        DayRoundTrip(DayOf(last) + 1);
        DatesInOrder(last, d);
        DatesInOrder(d, AddDays(last, 1));
      }
    }
  }

  lemma {:induction false} DueAscends(due: seq<Date>, yesterday: Date, car: Car)
    requires ValidRun(yesterday, car.stored, car.startDate) && IsDue(due, yesterday, car)
    ensures Ascending(due)
  {}

  /** A fleet car's result after its first `n` due days. */
  ghost predicate After(w: Weather, cars: seq<Car>, i: nat, due: seq<Date>, n: nat, r: CollectResult)
    requires i < |cars|
  {
    n <= |due| && r == Collected(w, cars, i, due[..n])
  }

  /** Of the due days, the first `n` are among the dates tried so far and the others are not. */
  ghost predicate TriedUpTo(due: seq<Date>, tried: seq<Date>, n: nat) {
    && n <= |due|
    && (forall j :: 0 <= j < n ==> due[j] in tried)
    && (forall j :: n <= j < |due| ==> due[j] !in tried)
  }

  lemma {:induction false} AllTried(due: seq<Date>, dates: seq<Date>, n: nat)
    requires TriedUpTo(due, dates, n) && forall d :: d in due ==> d in dates
    ensures n == |due| && due[..n] == due
  {
    if n < |due| {
      SomeUntried(due, dates, n);
    }
  }

  lemma {:induction false} SomeUntried(due: seq<Date>, tried: seq<Date>, n: nat)
    requires TriedUpTo(due, tried, n) && n < |due|
    ensures exists d :: d in due && d !in tried
  {
    assert due[n] in due;
  }

  /** The next date tried is the next due day, or no due day. */
  lemma {:induction false} NextTried(due: seq<Date>, dates: seq<Date>, k: nat, n: nat)
    requires Ascending(due) && Ascending(dates) && k < |dates| && TriedUpTo(due, dates[..k], n)
    requires forall d :: d in due ==> d in dates
    ensures dates[k] in due ==> n < |due| && due[n] == dates[k]
    ensures TriedUpTo(due, dates[..k + 1], if dates[k] in due then n + 1 else n)
  {
    assert dates[..k + 1] == dates[..k] + [dates[k]];
    if dates[k] in due {
      var j :| 0 <= j < |due| && due[j] == dates[k];
      assert forall i :: 0 <= i < k ==> dates[i] != dates[k];
      assert j >= n;
      assert due[n] in due;
      var m :| 0 <= m < |dates| && dates[m] == due[n];
      assert forall i :: 0 <= i < k ==> dates[i] in dates[..k];
      assert m >= k;
    }
  }

  // ---- gaps ----

  ghost predicate GapFree(stored: seq<Date>) {
    && (forall k :: 0 <= k < |stored| ==> IsDateNumber(stored[k]))
    && (forall k :: 0 <= k < |stored| ==> DayOf(stored[k]) == DayOf(stored[0]) + k)
  }

  /**
   * Stored days that had no gap have none after a run, exactly when nothing was collected,
   * nothing was stored before, or the last stored day is at most 31 days before yesterday.
   */
  lemma {:induction false} RunLeavesNoGapIff(w: Weather, cars: seq<Car>, i: nat, yesterday: Date, due: seq<Date>)
    requires i < |cars| && ValidRun(yesterday, cars[i].stored, cars[i].startDate) && IsDue(due, yesterday, cars[i])
    requires GapFree(cars[i].stored)
    ensures var r := Collected(w, cars, i, due);
      var stored := cars[i].stored;
      GapFree(stored + r.collected) <==>
        r.collected == [] || stored == [] || DayOf(yesterday) - DayOf(stored[|stored| - 1]) <= MAX_BACKFILL_DAYS
  {
    hide DayOf, DateOf, IsDateNumber, InRange, FirstDue, Collected;
    CollectedIsAPrefix(w, cars, i, due);
    FirstDueDay(yesterday, cars[i].stored, cars[i].startDate);
    JoinsIff(cars[i].stored, Collected(w, cars, i, due).collected, due);
  }

  /** Every reading can be made and published. */
  const CLEAR := Weather(_ => true, (_, _) => true)

  lemma {:induction false} AllCollected(cars: seq<Car>, i: nat, due: seq<Date>)
    requires i < |cars|
    ensures Collected(CLEAR, cars, i, due).collected == due
  {
    CollectedIsAPrefix(CLEAR, cars, i, due);
  }

  /**
   * Stored days without a gap stay so whatever succeeds and whatever fails, exactly when nothing
   * is stored yet or the last stored day is at most 31 days before yesterday.
   */
  lemma {:induction false} StaysGapFreeIff(cars: seq<Car>, i: nat, yesterday: Date, due: seq<Date>)
    requires i < |cars| && ValidRun(yesterday, cars[i].stored, cars[i].startDate) && IsDue(due, yesterday, cars[i])
    requires GapFree(cars[i].stored)
    ensures var stored := cars[i].stored;
      (forall w :: GapFree(stored + Collected(w, cars, i, due).collected)) <==>
        stored == [] || DayOf(yesterday) - DayOf(stored[|stored| - 1]) <= MAX_BACKFILL_DAYS
  {
    FirstDueDay(yesterday, cars[i].stored, cars[i].startDate);
    hide DayOf, DateOf, IsDateNumber, InRange, FirstDue, Collected, GapFree;
    forall w: Weather
      ensures var r := Collected(w, cars, i, due).collected;
        GapFree(cars[i].stored + r) <==>
          r == [] || cars[i].stored == [] || DayOf(yesterday) - DayOf(cars[i].stored[|cars[i].stored| - 1]) <= MAX_BACKFILL_DAYS
    {
      RunLeavesNoGapIff(w, cars, i, yesterday, due);
    }
    AllCollected(cars, i, due);
  }

  lemma {:induction false} JoinsIff(stored: seq<Date>, more: seq<Date>, due: seq<Date>)
    requires GapFree(stored) && |more| <= |due| && more == due[..|more|]
    requires GapFree(due)
    ensures GapFree(stored + more) <==> more == [] || stored == [] || DayOf(due[0]) == DayOf(stored[|stored| - 1]) + 1
  {
    hide DayOf, IsDateNumber;
    var n, all := |stored|, stored + more;
    if stored == [] {
      assert all == more;
    } else if more == [] {
      assert all == stored;
    } else {
      assert all[n] == due[0] && all[0] == stored[0] && DayOf(stored[n - 1]) == DayOf(stored[0]) + (n - 1);
      if DayOf(due[0]) == DayOf(stored[n - 1]) + 1 {
        forall k | 0 <= k < |all| ensures IsDateNumber(all[k]) && DayOf(all[k]) == DayOf(all[0]) + k {
          assert all[k] == if k < n then stored[k] else due[k - n];
        }
      } else {
        assert DayOf(all[n]) != DayOf(all[0]) + n;
      }
    }
  }

  /** A car last collected on January 1st of 2026, run on February 3rd: January 2nd is left out. */
  lemma {:induction false} AMonthLater()
    ensures ValidRun(20260202, [20260101], None) && FirstDue(20260202, [20260101], None) == 20260103
    ensures GapFree([20260101]) && !GapFree([20260101] + [20260103])
  {
    hide IsDateNumber, DayOf, DateOf, InRange;
    January(1);
    January(2);
    January(3);
    FebruarySecond();
    DateRoundTrip(20260102);
    DateRoundTrip(20260103);
    assert [20260101][|[20260101]| - 1] == 20260101;
    assert ([20260101] + [20260103])[0] == 20260101 && ([20260101] + [20260103])[1] == 20260103;
  }

  lemma {:induction false} January(day: nat)
    requires 1 <= day <= 31
    ensures IsDateNumber(20260100 + day) && DayOf(20260100 + day) == 20453 + day && InRange(20453 + day)
  {
    NumberRoundTrip(Civil(2026, 1, day));
    assert Number(Civil(2026, 1, day)) == 20260100 + day;
    hide CivilOf;
  }

  lemma {:induction false} FebruarySecond()
    ensures IsDateNumber(20260202) && DayOf(20260202) == 20486
  {
    NumberRoundTrip(Civil(2026, 2, 2));
    assert Number(Civil(2026, 2, 2)) == 20260202;
    hide CivilOf;
  }
}
