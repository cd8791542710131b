/**
 The `App` component of app.js: the ledger state it keeps and the handlers
 that change it. Parsed numbers arrive as `Option<real>` (`None` for NaN);
 the calendar (start day, last day of the month, today) and the expense id
 taken from the clock arrive as integers.
 */
module AppComponent {
  import opened Wrappers
  import opened Ledger
  import opened Allocation
  import opened ExpenseEdits
  import opened DayView

  /** The placeholder description of an expense entered without one. */
  const DefaultDesc: string := "Расход"

  /** `expenseDesc || 'Расход'`. */
  function DescOrDefault(desc: string): (r: string)
    ensures r != ""
    ensures desc != "" ==> r == desc
    ensures desc == "" ==> r == DefaultDesc
  {
    if desc == "" then DefaultDesc else desc
  }

  /** The setup form is refused when either number is NaN or the salary is not positive. */
  function InitRefused(sal: Option<real>, manEx: Option<real>): (refused: bool)
    ensures !refused <==> sal.Some? && manEx.Some? && sal.value > 0.0
  {
    sal.None? || manEx.None? || sal.value <= 0.0
  }

  /** The day shown after setup: the record of today, or the first day if today is not in the period. */
  function CurrentDayIndex(days: seq<DayRecord>, today: int): (r: int)
    ensures (forall j :: 0 <= j < |days| ==> days[j].day != today) ==> r == 0
    ensures (exists j :: 0 <= j < |days| && days[j].day == today) ==>
              0 <= r < |days| && days[r].day == today && forall j :: 0 <= j < r ==> days[j].day != today
  {
    var index := FindDayIndex(days, today);
    if index == -1 then 0 else index
  }

  class App {
    var initialized: bool
    var daysData: seq<DayRecord>
    var currentDayIndex: int
    var expenseError: bool

    /** The stored ledger is always recalculated, and once set up the shown day exists. */
    ghost predicate Valid()
      reads this
    {
      daysData == Recalc(daysData) &&
      (initialized ==> 0 <= currentDayIndex < |daysData|)
    }

    /** The component's initial state, before anything is restored or set up. */
    constructor ()
      ensures Valid()
      ensures !initialized && daysData == [] && currentDayIndex == 0 && !expenseError
    {
      initialized := false;
      daysData := [];
      currentDayIndex := 0;
      expenseError := false;
    }

    /** `handleInitSubmit`. */
    method HandleInitSubmit(sal: Option<real>, manEx: Option<real>, startDay: int, lastDayOfMonth: int, today: int)
      requires Valid()
      requires startDay <= lastDayOfMonth
      modifies this
      ensures Valid()
      ensures expenseError == old(expenseError)
      ensures InitRefused(sal, manEx) ==>
                initialized == old(initialized) && daysData == old(daysData) &&
                currentDayIndex == old(currentDayIndex)
      ensures !InitRefused(sal, manEx) ==>
                initialized &&
                daysData == Allocated(sal.value, manEx.value, startDay, lastDayOfMonth) &&
                currentDayIndex == CurrentDayIndex(daysData, today)
    {
      if InitRefused(sal, manEx) {
        return;
      }
      var totalDays := TotalDays(startDay, lastDayOfMonth);
      var baseDaily := BaseDaily(sal.value, manEx.value, totalDays);
      var days := BuildDays(startDay, lastDayOfMonth, baseDaily);
      var updatedDays := RecalcDays(days);
      RecalcIdempotent(days);
      daysData := updatedDays;
      initialized := true;
      var index := FindDayIndex(updatedDays, today);
      if index == -1 {
        index := 0;
      }
      currentDayIndex := index;
    }

    /** `addExpense`: `id` is the clock reading the source takes as the new expense's id. */
    method AddExpense(amount: Option<real>, desc: string, id: int)
      requires Valid()
      modifies this
      ensures Valid()
      ensures initialized == old(initialized) && currentDayIndex == old(currentDayIndex)
      ensures AmountRefused(amount) ==> expenseError && daysData == old(daysData)
      ensures !AmountRefused(amount) ==>
                !expenseError &&
                daysData == Recalc(AddToDay(old(daysData), currentDayIndex,
                                            Expense(id, amount.value, DescOrDefault(desc))))
    {
      if AmountRefused(amount) {
        expenseError := true;
        return;
      }
      expenseError := false;
      var newExpense := Expense(id, amount.value, DescOrDefault(desc));
      var updatedDays := AddToDay(daysData, currentDayIndex, newExpense);
      var recalculated := RecalcDays(updatedDays);
      RecalcIdempotent(updatedDays);
      daysData := recalculated;
    }

    /** `removeExpense(dayIndex, expenseId)`. */
    method RemoveExpense(dayIndex: int, expenseId: int)
      requires Valid()
      modifies this
      ensures Valid()
      ensures initialized == old(initialized) && currentDayIndex == old(currentDayIndex)
      ensures expenseError == old(expenseError)
      ensures daysData == Recalc(RemoveFromDay(old(daysData), dayIndex, expenseId))
    {
      var updatedDays := RemoveFromDay(daysData, dayIndex, expenseId);
      var recalculated := RecalcDays(updatedDays);
      RecalcIdempotent(updatedDays);
      daysData := recalculated;
    }

    /** `resetBudget`: `confirmed` is the answer to the confirmation dialog. */
    method ResetBudget(confirmed: bool)
      requires Valid()
      modifies this
      ensures Valid()
      ensures expenseError == old(expenseError) && currentDayIndex == old(currentDayIndex)
      ensures confirmed ==> daysData == [] && !initialized
      ensures !confirmed ==> daysData == old(daysData) && initialized == old(initialized)
    {
      if confirmed {
        daysData := [];
        initialized := false;
      }
    }

    /** The previous-day button; it is disabled on the first day. */
    method PrevDay()
      requires Valid()
      modifies this
      ensures Valid()
      ensures daysData == old(daysData) && initialized == old(initialized) && expenseError == old(expenseError)
      ensures currentDayIndex == Navigate(old(currentDayIndex), |daysData|, false)
    {
      if !PrevDisabled(currentDayIndex) {
        currentDayIndex := currentDayIndex - 1;
      }
    }

    /** The next-day button; it is disabled on the last day. */
    method NextDay()
      requires Valid()
      modifies this
      ensures Valid()
      ensures daysData == old(daysData) && initialized == old(initialized) && expenseError == old(expenseError)
      ensures currentDayIndex == Navigate(old(currentDayIndex), |daysData|, true)
    {
      if !NextDisabled(currentDayIndex, |daysData|) {
        currentDayIndex := currentDayIndex + 1;
      }
    }

    /** The month table's details button on row `idx`: show that day. */
    method SelectDay(idx: int)
      requires Valid()
      requires 0 <= idx < |daysData|
      modifies this
      ensures Valid()
      ensures daysData == old(daysData) && initialized == old(initialized) && expenseError == old(expenseError)
      ensures currentDayIndex == idx
    {
      currentDayIndex := idx;
    }
  }
}
