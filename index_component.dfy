/**
 The `App` component of index.js. Its ledger engine is the same as app.js's;
 it differs in three rules: any salary that parses is accepted, an expense
 keeps its description exactly as entered, and when today is not in the
 period the last day is shown. A refused amount only raises an alert, so no
 error flag is kept.
 */
module IndexComponent {
  import opened Wrappers
  import opened Ledger
  import opened Allocation
  import opened ExpenseEdits
  import opened DayView

  /** The setup form is refused only when a number is NaN; any salary that parses passes. */
  function InitRefused(sal: Option<real>, manEx: Option<real>): (refused: bool)
    ensures !refused <==> sal.Some? && manEx.Some?
  {
    sal.None? || manEx.None?
  }

  /** The day shown after setup: the record of today, or the last day if today is not in the period. */
  function CurrentDayIndex(days: seq<DayRecord>, today: int): (r: int)
    ensures (forall j :: 0 <= j < |days| ==> days[j].day != today) ==> r == |days| - 1
    ensures (exists j :: 0 <= j < |days| && days[j].day == today) ==>
              0 <= r < |days| && days[r].day == today && forall j :: 0 <= j < r ==> days[j].day != today
  {
    var index := FindDayIndex(days, today);
    if index == -1 then |days| - 1 else index
  }

  /** A non-positive salary passes validation and yields a full ledger of non-positive shares. */
  lemma NonPositiveSalaryAccepted(sal: real, manEx: real, startDay: int, lastDayOfMonth: int)
    requires sal <= 0.0 && manEx >= 0.0
    requires startDay <= lastDayOfMonth
    ensures !InitRefused(Some(sal), Some(manEx))
    ensures var r := Allocated(sal, manEx, startDay, lastDayOfMonth);
            |r| == lastDayOfMonth - startDay + 1 && forall i :: 0 <= i < |r| ==> r[i].baseDaily <= 0.0
  {
    AllocationShape(sal, manEx, startDay, lastDayOfMonth);
    var n := (lastDayOfMonth - startDay + 1) as real;
    assert sal - manEx - 0.15 * sal <= 0.0;
    assert (sal - manEx - 0.15 * sal) / n <= 0.0;
  }

  class App {
    var initialized: bool
    var daysData: seq<DayRecord>
    var currentDayIndex: int

    /** The stored ledger is always recalculated, and once set up the shown day exists. */
    ghost predicate Valid()
      reads this
    {
      daysData == Recalc(daysData) &&
      (initialized ==> 0 <= currentDayIndex < |daysData|)
    }

    /** The component's initial state, before anything is restored or set up. */
    constructor ()
      ensures Valid()
      ensures !initialized && daysData == [] && currentDayIndex == 0
    {
      initialized := false;
      daysData := [];
      currentDayIndex := 0;
    }

    /** `handleInitSubmit`. */
    method HandleInitSubmit(sal: Option<real>, manEx: Option<real>, startDay: int, lastDayOfMonth: int, today: int)
      requires Valid()
      requires startDay <= lastDayOfMonth
      modifies this
      ensures Valid()
      ensures InitRefused(sal, manEx) ==>
                initialized == old(initialized) && daysData == old(daysData) &&
                currentDayIndex == old(currentDayIndex)
      ensures !InitRefused(sal, manEx) ==>
                initialized &&
                daysData == Allocated(sal.value, manEx.value, startDay, lastDayOfMonth) &&
                currentDayIndex == CurrentDayIndex(daysData, today)
    {
      if InitRefused(sal, manEx) {
        return;
      }
      var totalDays := TotalDays(startDay, lastDayOfMonth);
      var baseDaily := BaseDaily(sal.value, manEx.value, totalDays);
      var days := BuildDays(startDay, lastDayOfMonth, baseDaily);
      var updatedDays := RecalcDays(days);
      RecalcIdempotent(days);
      daysData := updatedDays;
      initialized := true;
      var index := FindDayIndex(updatedDays, today);
      if index == -1 {
        index := |updatedDays| - 1;
      }
      currentDayIndex := index;
    }

    /** `addExpense`: `id` is the clock reading the source takes as the new expense's id. */
    method AddExpense(amount: Option<real>, desc: string, id: int)
      requires Valid()
      modifies this
      ensures Valid()
      ensures initialized == old(initialized) && currentDayIndex == old(currentDayIndex)
      ensures AmountRefused(amount) ==> daysData == old(daysData)
      ensures !AmountRefused(amount) ==>
                daysData == Recalc(AddToDay(old(daysData), currentDayIndex, Expense(id, amount.value, desc)))
    {
      if AmountRefused(amount) {
        return;
      }
      var newExpense := Expense(id, amount.value, desc);
      var updatedDays := AddToDay(daysData, currentDayIndex, newExpense);
      var recalculated := RecalcDays(updatedDays);
      RecalcIdempotent(updatedDays);
      daysData := recalculated;
    }

    /** `removeExpense(dayIndex, expenseId)`. */
    method RemoveExpense(dayIndex: int, expenseId: int)
      requires Valid()
      modifies this
      ensures Valid()
      ensures initialized == old(initialized) && currentDayIndex == old(currentDayIndex)
      ensures daysData == Recalc(RemoveFromDay(old(daysData), dayIndex, expenseId))
    {
      var updatedDays := RemoveFromDay(daysData, dayIndex, expenseId);
      var recalculated := RecalcDays(updatedDays);
      RecalcIdempotent(updatedDays);
      daysData := recalculated;
    }

    /** The previous-day button; it is disabled on the first day. */
    method PrevDay()
      requires Valid()
      modifies this
      ensures Valid()
      ensures daysData == old(daysData) && initialized == old(initialized)
      ensures currentDayIndex == Navigate(old(currentDayIndex), |daysData|, false)
    {
      if !PrevDisabled(currentDayIndex) {
        currentDayIndex := currentDayIndex - 1;
      }
    }

    /** The next-day button; it is disabled on the last day. */
    method NextDay()
      requires Valid()
      modifies this
      ensures Valid()
      ensures daysData == old(daysData) && initialized == old(initialized)
      ensures currentDayIndex == Navigate(old(currentDayIndex), |daysData|, true)
    {
      if !NextDisabled(currentDayIndex, |daysData|) {
        currentDayIndex := currentDayIndex + 1;
      }
    }
  }
}
