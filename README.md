# Monthly budget ledger: a Dafny model

This project models the budget engine inside the React `App` component of
`app.js` and `index.js`. The engine shares a month's income among the
remaining days of the month. It tracks the expenses logged on each day and
carries each day's unspent (or overspent) remainder into the next day.

- **Ledger** (`ledger.dfy`): the day records and `recalcDays`. Each day gets
  `available = baseDaily + carry` and `calculated = available - spent`. That
  remainder is the next day's carry, and the first day's carry is 0.
  `RecalcFrom`/`Recalc` are the pure specification. `RecalcDays` is the
  source's single pass with a mutable `carry`, written as a loop and proved
  equal to `Recalc`. The lemmas prove four things:
  - the balances are exactly those fixed by the carry rule (`Chained`);
  - recalculation only overwrites `available` and `calculated`;
  - recalculation is idempotent;
  - every remainder telescopes to "shares so far minus spending so far".
- **Allocation** (`allocation.dfy`): the arithmetic of `handleInitSubmit`,
  with `cleanIncome`, the 15% savings reserve of the gross salary,
  `availableForLife` and `baseDaily`, plus the `for`/`push` loop that builds
  one record per day from `startDay` to `lastDayOfMonth`.
- **ExpenseEdits** (`expense_edits.dfy`): the `map`/`filter` edits of
  `addExpense` and `removeExpense`, with these properties:
  - an added expense lowers that day's remainder, and every later day's
    remainder, by its amount;
  - the `filter` keeps the other expenses in their order and multiplicity,
    and a removal raises that day's and every later day's remainder by the
    amounts it removed;
  - removing an id the day does not hold changes nothing;
  - adding an expense with a fresh id and then removing that id gives back
    the original ledger.
- **DayView** (`day_view.dfy`): `calculateProgress`, `getProgressClass`,
  the `findIndex` of today's record and the prev/next button bounds.
- **AppComponent** / **IndexComponent** (`app_component.dfy`,
  `index_component.dfy`): each file's component as a class with fields
  `initialized`, `daysData`, `currentDayIndex` and, in app.js only,
  `expenseError`. Its methods mirror the handlers. The invariant `Valid()`
  says two things: the stored ledger is always recalculated, and once set up
  the shown day exists. Every handler keeps it.

Money is `real`, so the model states the intended arithmetic rather than
IEEE doubles. The result of `parseFloat` is an `Option<real>`, with `None`
standing for NaN. Calendar values (`startDay`, `lastDayOfMonth`, today's day
of the month) are integer parameters. So is the `Date.now()` reading used as
an expense id.

The two files differ in three rules, and each component module states its own:
- index.js accepts any salary that parses, including one ≤ 0
  (index.js:48).
- index.js stores the description exactly as typed, even when it is empty
  (index.js:112).
- When today is not in the period, index.js shows the last day instead of
  the first (index.js:89).

`recalcDays` and the per-day edits are the same text in both files
(index.js:94-103, 113-118, 127-132), so they are modelled once, and the
table cites app.js. app.js:403-807 is a second copy of app.js:1-402 and is
not cited.

The construction loop pushes each day with `available = baseDaily` and
`calculated = 0` (app.js:91-100), but `handleInitSubmit` runs `recalcDays`
on the new days straight away (app.js:103), so the carry accumulates: day
`i` (counted from 0) has `(i + 1) * baseDaily` both available and left
(`Allocation.AllocatedBalances`).

## Model

| member | source | states |
|---|---|---|
| Ledger.RecalcFrom | app.js:122-129 | the `map` with a running carry returns one record per input record; what each record holds is stated by `Ledger.RecalcFromAt` |
| Ledger.Recalc | app.js:121-130 | `recalcDays` returns one record per day, and the first day, which receives no carry, has exactly its own share available (same at index.js:94-103) |
| Ledger.RecalcFromKeepsSkeleton | app.js:123-129 | recalculation returns as many records as it gets and keeps each record's day, expenses and baseDaily; only available and calculated are overwritten (same code at index.js:96-102) |
| Ledger.RecalcFromAt | app.js:122-128 | with a starting carry c, record i has available = baseDaily + (c for the first day, else the previous record's calculated) and calculated = available − spent |
| Ledger.RecalcIsChained | app.js:121-129 | the recalculated ledger obeys the carry rule: available[0] = baseDaily[0], available[i] = baseDaily[i] + calculated[i−1], calculated[i] = available[i] − spent[i]; negative remainders are ordinary values (same at index.js:94-103) |
| Ledger.RecalcCharacterization | app.js:121-129 | a ledger equals the recalculation of `days` if and only if it has the same days, expenses and shares and obeys the carry rule |
| Ledger.RecalcOnlyReadsSkeleton | app.js:123-128 | the output depends only on day, expenses and baseDaily, never on the stale available/calculated values |
| Ledger.RecalcIdempotent | app.js:121-129 | recalculating a recalculated ledger changes nothing (same at index.js:94-103) |
| Ledger.RecalcClosedForm | app.js:121-129 | day j has available = sum of shares of days 0..j minus spending of days 0..j−1, and calculated = shares of days 0..j minus spending of days 0..j |
| Ledger.FinalRemainderTelescopes | app.js:121-129 | the last day's remainder equals the sum of all baseDaily minus everything spent (same at index.js:94-103) |
| Ledger.SpentAppend | app.js:125 | appending one expense to a day adds exactly its amount to what the `reduce` sums for that day |
| Ledger.SpentToday | app.js:125 | the `reduce` loop returns the sum of the day's expense amounts |
| Ledger.RecalcDays | app.js:121-130 | the one-pass loop with a mutable carry returns exactly the recalculated ledger (same at index.js:94-103) |
| Allocation.BuildDays | app.js:91-100 | the construction loop yields one record per day startDay..lastDayOfMonth: day startDay+k, no expenses, available = baseDaily, calculated 0 (same at index.js:70-79) |
| Allocation.BaseDaily | app.js:82-88 | the daily share times the number of days gives back exactly availableForLife = salary − mandatory expenses − 15% of the salary (same at index.js:62-67) |
| Allocation.InitialDays | app.js:91-100 | the pushed records number lastDayOfMonth − startDay + 1, run from startDay to lastDayOfMonth, and each has no expenses and the given share |
| Allocation.Allocated | app.js:91-103 | the stored ledger has one record per day of the period, and its first day has exactly one share available |
| Allocation.SumBaseOfEqualShares | app.js:88 | n equal shares sum to n times the share |
| Allocation.NothingSpentWithoutExpenses | app.js:95 | days whose expense lists are empty have nothing spent |
| Allocation.AllocationShape | app.js:82-100 | the allocated ledger has lastDayOfMonth − startDay + 1 records with days startDay..lastDayOfMonth ascending and consecutive, no expenses, every baseDaily = (sal − manEx − 0.15·sal)/totalDays, and the shares sum to availableForLife (same at index.js:62-79) |
| Allocation.AllocatedBalances | app.js:91-103 | right after allocation, day i has available = calculated = (i + 1)·baseDaily |
| Allocation.AllocatedFinalRemainder | app.js:85-103 | right after allocation, the last day's remainder is availableForLife |
| Allocation.FinalRemainderAfterEdits | app.js:88 | for any expenses on the allocated shares, the last remainder is availableForLife minus everything spent (same at index.js:67) |
| ExpenseEdits.WithoutId | app.js:165 | the filter never grows the list; what it keeps, and in which order, is stated by `WithoutIdSnoc`, `WithoutIdConcat` and `WithoutIdCounts` |
| ExpenseEdits.WithoutIdSnoc | app.js:165 | filtering a list extended by one expense filters the list and then keeps that expense exactly when its id differs, at the end |
| ExpenseEdits.WithoutIdConcat | app.js:165 | the filter distributes over concatenation, so the expenses it keeps stay in their original order |
| ExpenseEdits.WithoutIdCounts | app.js:165 | every expense with the id is dropped, every other one is kept exactly as many times as it occurred, and an expense is in the result exactly when it was in the list with another id |
| ExpenseEdits.SpentWithoutId | app.js:165 | after the filter, the day's `reduce` sum is the old sum minus the amounts of the expenses with that id |
| ExpenseEdits.AmountRefused | app.js:135 | an amount is accepted exactly when it parses and is positive (same at index.js:108) |
| ExpenseEdits.AddToDay | app.js:145-150 | the day at the index gains exactly the new expense after its old ones and keeps its day and share; every other day is returned as it was (same at index.js:113-118) |
| ExpenseEdits.RemoveFromDay | app.js:163-168 | the day at the index gets its list filtered and keeps its day and share; every other day is returned as it was (same at index.js:127-132) |
| ExpenseEdits.WithoutAbsentId | app.js:165 | filtering an id the list does not hold returns the list unchanged |
| ExpenseEdits.WithoutAppended | app.js:165 | filtering out the id of the expense just appended gives the same list as filtering the list without it |
| ExpenseEdits.AddExpenseEdits | app.js:144-152 | after the add, the day at the index ends with exactly the new expense after its old ones; every other day's list, every day number and every share is unchanged (same at index.js:112-120) |
| ExpenseEdits.SpendingShift | app.js:121-129 | when an edit changes only what one day spends, by δ, recalculation leaves earlier days as they were, keeps that day's available, and lowers its remainder and every later day's available and remainder by δ |
| ExpenseEdits.AddExpenseShiftsBalances | app.js:145-152 | an added expense leaves earlier days untouched, keeps that day's available, and lowers its remainder and every later day's available and remainder by the amount |
| ExpenseEdits.RemoveExpenseEdits | app.js:162-171 | after recalculation the given day has dropped every expense with the id and kept every other one as often as it occurred; every other day's list, and every day number and share, is unchanged (same at index.js:126-134) |
| ExpenseEdits.RemoveExpenseShiftsBalances | app.js:162-171 | a removal leaves earlier days untouched, keeps that day's available, and raises its remainder and every later day's available and remainder by the sum of the removed amounts |
| ExpenseEdits.RemoveMissingIdIsNoop | app.js:162-171 | removing an id the day does not hold changes no expense list, and leaves a recalculated ledger as it was |
| ExpenseEdits.RemoveUndoesAddSkeleton | app.js:147-165 | filtering the new id out of the day it was appended to gives back the day numbers, expense lists and shares the ledger had before the add |
| ExpenseEdits.AddThenRemoveRestores | app.js:142-171 | on a recalculated ledger, adding an expense whose id the day lacks and then removing that id gives back the original ledger (same at index.js:112-134) |
| DayView.CalculateProgress | app.js:191-195 | the result is exactly 100 when available ≤ 0, never above 100, equals 100 for available > 0 exactly when spent ≥ available, and is spent/available·100 otherwise |
| DayView.ProgressClass | app.js:198-202 | the class is 'danger' exactly when the progress is at least 100, 'warning' exactly when it is in [80, 100), and empty exactly below 80 |
| DayView.ProgressClassMeaning | app.js:198-202 | the class is 'danger' exactly when available ≤ 0 or spent ≥ available, and 'warning' exactly when 0.8·available ≤ spent < available |
| DayView.DangerMeansNoRemainder | app.js:258-261 | on a recalculated day, the progress bar is 'danger' exactly when available ≤ 0 or the remainder is ≤ 0 |
| DayView.FindDayIndex | app.js:110 | returns the first position whose day is today, or −1 exactly when no day matches |
| DayView.Navigate | app.js:330-343 | an enabled "previous" click goes to index − 1 and an enabled "next" click to index + 1; a click on a disabled button (index ≤ 0 / index ≥ length − 1) leaves the index, so an index in [0, length) stays there (same at index.js:219-232) |
| AppComponent.DescOrDefault | app.js:144 | an empty description becomes 'Расход'; any other is kept |
| AppComponent.InitRefused | app.js:64 | the setup form is accepted exactly when both numbers parse and the salary is positive |
| AppComponent.CurrentDayIndex | app.js:109-112 | the shown day is the first record of today, or index 0 when today is not in the period |
| AppComponent.App.constructor | app.js:6-17 | starts uninitialised, with an empty ledger, index 0 and no error flag |
| AppComponent.App.HandleInitSubmit | app.js:56-118 | refuses (nothing changes) when a number is NaN or salary ≤ 0; otherwise stores the allocated, recalculated ledger, marks it set up and selects today's index, keeping Valid |
| AppComponent.App.AddExpense | app.js:133-159 | a NaN or non-positive amount sets the error flag and leaves the ledger; otherwise it clears the flag, appends the expense (default description) to the current day and stores the recalculated ledger |
| AppComponent.App.RemoveExpense | app.js:162-172 | stores the recalculation of the ledger with that id filtered out of the given day |
| AppComponent.App.ResetBudget | app.js:175-188 | after a confirmed reset the ledger is empty and the component is not set up; otherwise nothing changes |
| AppComponent.App.PrevDay | app.js:331-336 | moves to the previous day unless on the first day |
| AppComponent.App.NextDay | app.js:337-342 | moves to the next day unless on the last day |
| AppComponent.App.SelectDay | app.js:382-385 | the month table's details button shows the chosen day |
| IndexComponent.CurrentDayIndex | index.js:86-90 | the shown day is the first record of today, or the last index when today is not in the period |
| IndexComponent.InitRefused | index.js:48 | the setup form is accepted exactly when both numbers parse, whatever their sign |
| IndexComponent.NonPositiveSalaryAccepted | index.js:48-51 | a salary ≤ 0 with mandatory expenses ≥ 0 passes validation and yields a full ledger of non-positive shares |
| IndexComponent.App.constructor | index.js:8-14 | starts uninitialised, with an empty ledger and index 0 |
| IndexComponent.App.HandleInitSubmit | index.js:44-91 | refuses only NaN inputs; otherwise stores the allocated, recalculated ledger and selects today's index or the last one |
| IndexComponent.App.AddExpense | index.js:106-123 | a NaN or non-positive amount leaves the ledger; otherwise the expense, with its description as typed, is appended to the current day and the ledger recalculated |
| IndexComponent.App.RemoveExpense | index.js:126-135 | stores the recalculation of the ledger with that id filtered out of the given day |
| IndexComponent.App.PrevDay | index.js:220-225 | moves to the previous day unless on the first day |
| IndexComponent.App.NextDay | index.js:226-231 | moves to the next day unless on the last day |

## Left out

- Rendering (JSX, `toFixed`, CSS class strings other than the progress class) is presentation only, and so is the `activeView` switch between the daily view and the month table.
- Loading from and saving to `localStorage` (`JSON.parse`/`JSON.stringify`) is persistence I/O. A restored ledger is therefore not known to satisfy `Valid()`.
- Telegram WebApp calls, `alert`, `window.confirm` (modelled as the `confirmed` parameter) and hiding the keyboard are host or browser calls.
- The raw form strings (`salary`, `mandatoryExpenses`, `startDate`, `expenseAmount`, `expenseDesc`) and their clearing after an add are not modelled; the handlers take the parsed values as parameters.
- Working out `startDay`, `lastDayOfMonth` and today's day from `new Date(...)` is done by the caller and passed in as integers.
- IEEE floating point is not modelled: rounding, `Infinity` passing the `amount <= 0` check, and division by zero. Money is `real`.
- AppComponent.App.HandleInitSubmit and IndexComponent.App.HandleInitSubmit require `startDay <= lastDayOfMonth`. A start date whose day of the month lies after the current month's last day makes the source divide by a non-positive day count and store an empty ledger; that case is not modelled.
- Uniqueness of `Date.now()` ids is not modelled. The add/remove round trip (`ExpenseEdits.AddThenRemoveRestores`) assumes the new id is not already on that day.
