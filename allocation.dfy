/**
 The allocation done by `handleInitSubmit`: the month's income, less the
 mandatory expenses and a 15% savings reserve of the gross salary, is shared
 equally among the days from `startDay` to `lastDayOfMonth`.
 */
module Allocation {
  import opened Ledger

  /** Income left after the mandatory expenses (may be negative). */
  function CleanIncome(sal: real, manEx: real): real
  {
    sal - manEx
  }

  /** The savings reserve: 15% of the gross salary. */
  function Savings(sal: real): real
  {
    sal * 0.15
  }

  /** What the period has to live on. */
  function AvailableForLife(sal: real, manEx: real): real
  {
    CleanIncome(sal, manEx) - Savings(sal)
  }

  /** Number of days from `startDay` to `lastDayOfMonth` inclusive. */
  function TotalDays(startDay: int, lastDayOfMonth: int): int
  {
    lastDayOfMonth - startDay + 1
  }

  /** Each day's equal share of `AvailableForLife`. */
  function BaseDaily(sal: real, manEx: real, totalDays: int): (share: real)
    requires totalDays > 0
    ensures share * totalDays as real == AvailableForLife(sal, manEx)
  {
    AvailableForLife(sal, manEx) / totalDays as real
  }

  /** The records the construction loop pushes, before the first recalculation. */
  function InitialDays(startDay: int, lastDayOfMonth: int, baseDaily: real): (r: seq<DayRecord>)
    requires startDay <= lastDayOfMonth
    ensures |r| == TotalDays(startDay, lastDayOfMonth)
    ensures r[0].day == startDay && r[|r| - 1].day == lastDayOfMonth
    ensures forall i :: 0 <= i < |r| ==> r[i].expenses == [] && r[i].baseDaily == baseDaily
  {
    seq(TotalDays(startDay, lastDayOfMonth), i => DayRecord(startDay + i, [], baseDaily, baseDaily, 0.0))
  }

  /** The ledger `handleInitSubmit` stores: the initial records, recalculated. */
  function Allocated(sal: real, manEx: real, startDay: int, lastDayOfMonth: int): (r: seq<DayRecord>)
    requires startDay <= lastDayOfMonth
    ensures |r| == TotalDays(startDay, lastDayOfMonth)
    ensures r[0].available == BaseDaily(sal, manEx, TotalDays(startDay, lastDayOfMonth))
  {
    Recalc(InitialDays(startDay, lastDayOfMonth, BaseDaily(sal, manEx, TotalDays(startDay, lastDayOfMonth))))
  }

  /** The `for (let day = startDay; day <= lastDayOfMonth; day++) days.push(...)` loop. */
  method BuildDays(startDay: int, lastDayOfMonth: int, baseDaily: real) returns (days: seq<DayRecord>)
    requires startDay <= lastDayOfMonth
    ensures days == InitialDays(startDay, lastDayOfMonth, baseDaily)
  {
    days := [];
    var day := startDay;
    while day <= lastDayOfMonth
      invariant startDay <= day <= lastDayOfMonth + 1
      invariant |days| == day - startDay
      invariant forall k :: 0 <= k < |days| ==> days[k] == DayRecord(startDay + k, [], baseDaily, baseDaily, 0.0)
    {
      days := days + [DayRecord(day, [], baseDaily, baseDaily, 0.0)];
      day := day + 1;
    }
  }

  /** `n` equal shares sum to `n` times the share. */
  lemma {:induction false} SumBaseOfEqualShares(days: seq<DayRecord>, share: real)
    requires forall k :: 0 <= k < |days| ==> days[k].baseDaily == share
    ensures SumBase(days) == |days| as real * share
    decreases |days|
  {
    if days != [] {
      SumBaseOfEqualShares(days[..|days| - 1], share);
    }
  }

  /** Nothing is spent over days without expenses. */
  lemma {:induction false} NothingSpentWithoutExpenses(days: seq<DayRecord>)
    requires forall k :: 0 <= k < |days| ==> days[k].expenses == []
    ensures TotalSpent(days) == 0.0
    decreases |days|
  {
    if days != [] {
      NothingSpentWithoutExpenses(days[..|days| - 1]);
    }
  }

  /**
   The allocated ledger has one record per day of the period, ascending and
   consecutive, none with expenses, each with the same share, and the shares
   add up to exactly what the period has to live on.
   */
  lemma AllocationShape(sal: real, manEx: real, startDay: int, lastDayOfMonth: int)
    requires startDay <= lastDayOfMonth
    ensures var r := Allocated(sal, manEx, startDay, lastDayOfMonth);
            && |r| == lastDayOfMonth - startDay + 1
            && r[0].day == startDay && r[|r| - 1].day == lastDayOfMonth
            && (forall i :: 0 <= i < |r| ==> r[i].day == startDay + i && r[i].expenses == [])
            && (forall i :: 0 <= i < |r| ==>
                  r[i].baseDaily == (sal - manEx - 0.15 * sal) / (lastDayOfMonth - startDay + 1) as real)
            && SumBase(r) == sal - manEx - 0.15 * sal
  {
    var n := TotalDays(startDay, lastDayOfMonth);
    var share := BaseDaily(sal, manEx, n);
    var initial := InitialDays(startDay, lastDayOfMonth, share);
    var r := Recalc(initial);
    RecalcFromKeepsSkeleton(initial, 0.0);
    SumBaseOfEqualShares(r, share);
    assert n as real * share == AvailableForLife(sal, manEx);
  }

  /**
   Right after allocation the carry accumulates: day `i` (counted from 0) has
   `i + 1` shares available and, with nothing spent, keeps all of them.
   */
  lemma {:induction false} AllocatedBalances(sal: real, manEx: real, startDay: int, lastDayOfMonth: int, i: int)
    requires startDay <= lastDayOfMonth
    requires 0 <= i < lastDayOfMonth - startDay + 1
    ensures var r := Allocated(sal, manEx, startDay, lastDayOfMonth);
            var share := BaseDaily(sal, manEx, TotalDays(startDay, lastDayOfMonth));
            r[i].available == (i + 1) as real * share && r[i].calculated == (i + 1) as real * share
    decreases i
  {
    var share := BaseDaily(sal, manEx, TotalDays(startDay, lastDayOfMonth));
    var initial := InitialDays(startDay, lastDayOfMonth, share);
    RecalcFromAt(initial, 0.0, i);
    if i > 0 {
      AllocatedBalances(sal, manEx, startDay, lastDayOfMonth, i - 1);
    }
  }

  /** The last remainder of a fresh allocation is everything the period has to live on. */
  lemma AllocatedFinalRemainder(sal: real, manEx: real, startDay: int, lastDayOfMonth: int)
    requires startDay <= lastDayOfMonth
    ensures var r := Allocated(sal, manEx, startDay, lastDayOfMonth);
            |r| > 0 && r[|r| - 1].calculated == AvailableForLife(sal, manEx)
  {
    var r := Allocated(sal, manEx, startDay, lastDayOfMonth);
    var initial := InitialDays(startDay, lastDayOfMonth, BaseDaily(sal, manEx, TotalDays(startDay, lastDayOfMonth)));
    AllocationShape(sal, manEx, startDay, lastDayOfMonth);
    FinalRemainderTelescopes(initial);
    NothingSpentWithoutExpenses(initial);
    RecalcFromKeepsSkeleton(initial, 0.0);
    SumBaseOfEqualShares(initial, BaseDaily(sal, manEx, TotalDays(startDay, lastDayOfMonth)));
    SumBaseOfEqualShares(r, BaseDaily(sal, manEx, TotalDays(startDay, lastDayOfMonth)));
  }

  /**
   Whatever expenses were added or removed since allocation, as long as the
   shares are the allocated ones, the last day's remainder is what the period
   had to live on minus everything spent.
   */
  lemma FinalRemainderAfterEdits(sal: real, manEx: real, startDay: int, lastDayOfMonth: int, days: seq<DayRecord>)
    requires startDay <= lastDayOfMonth
    requires |days| == TotalDays(startDay, lastDayOfMonth)
    requires forall i :: 0 <= i < |days| ==> days[i].baseDaily == BaseDaily(sal, manEx, TotalDays(startDay, lastDayOfMonth))
    ensures Recalc(days)[|days| - 1].calculated == AvailableForLife(sal, manEx) - TotalSpent(days)
  {
    var n := TotalDays(startDay, lastDayOfMonth);
    var share := BaseDaily(sal, manEx, n);
    FinalRemainderTelescopes(days);
    SumBaseOfEqualShares(days, share);
    assert |days| as real * share == share * n as real;
  }
}
