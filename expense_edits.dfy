/**
 The per-day edits made by `addExpense` and `removeExpense` before they
 recalculate the whole ledger: a `map` over the days that rebuilds only the
 day at the given index, appending to or filtering its expense list.
 */
module ExpenseEdits {
  import opened Wrappers
  import opened Ledger

  /** The amount check shared by both `addExpense` handlers: NaN and non-positive amounts are refused. */
  function AmountRefused(amount: Option<real>): (refused: bool)
    ensures !refused <==> amount.Some? && amount.value > 0.0
  {
    amount.None? || amount.value <= 0.0
  }

  /** The day's list holds an expense with this id. */
  predicate HasId(es: seq<Expense>, id: int)
  {
    exists k :: 0 <= k < |es| && es[k].id == id
  }

  /** `[...day.expenses, e]` on the day at `idx`; every other day as it was. */
  function AddToDay(days: seq<DayRecord>, idx: int, e: Expense): (r: seq<DayRecord>)
    ensures |r| == |days|
    ensures forall j :: 0 <= j < |days| && j != idx ==> r[j] == days[j]
    ensures 0 <= idx < |days| ==>
              r[idx].expenses == days[idx].expenses + [e] &&
              r[idx].day == days[idx].day && r[idx].baseDaily == days[idx].baseDaily
  {
    seq(|days|, j requires 0 <= j < |days| =>
      if j == idx then days[j].(expenses := days[j].expenses + [e]) else days[j])
  }

  /** `expenses.filter(exp => exp.id !== id)`. */
  function WithoutId(es: seq<Expense>, id: int): (r: seq<Expense>)
    ensures |r| <= |es|
    decreases |es|
  {
    if es == [] then []
    else
      var last := es[|es| - 1];
      WithoutId(es[..|es| - 1], id) + (if last.id == id then [] else [last])
  }

  /** `expenses.filter(exp => exp.id !== id)` on the day at `idx`; every other day as it was. */
  function RemoveFromDay(days: seq<DayRecord>, idx: int, id: int): (r: seq<DayRecord>)
    ensures |r| == |days|
    ensures forall j :: 0 <= j < |days| && j != idx ==> r[j] == days[j]
    ensures 0 <= idx < |days| ==>
              r[idx].expenses == WithoutId(days[idx].expenses, id) &&
              r[idx].day == days[idx].day && r[idx].baseDaily == days[idx].baseDaily
  {
    seq(|days|, j requires 0 <= j < |days| =>
      if j == idx then days[j].(expenses := WithoutId(days[j].expenses, id)) else days[j])
  }

  /** Filtering a list with one more expense at the end filters the list and then that expense. */
  lemma WithoutIdSnoc(es: seq<Expense>, x: Expense, id: int)
    ensures WithoutId(es + [x], id) == WithoutId(es, id) + (if x.id == id then [] else [x])
  {
    assert (es + [x])[..|es|] == es;
  }

  /** The filter distributes over concatenation: it keeps what it keeps in its original order. */
  lemma {:induction false} WithoutIdConcat(a: seq<Expense>, b: seq<Expense>, id: int)
    ensures WithoutId(a + b, id) == WithoutId(a, id) + WithoutId(b, id)
    decreases |b|
  {
    if b == [] {
      assert a + b == a;
    } else {
      var init := b[..|b| - 1];
      var last := b[|b| - 1];
      var kept := if last.id == id then [] else [last];
      calc {
        WithoutId(a + b, id);
        { assert a + b == (a + init) + [last]; }
        WithoutId((a + init) + [last], id);
        { WithoutIdSnoc(a + init, last, id); }
        WithoutId(a + init, id) + kept;
        { WithoutIdConcat(a, init, id); }
        WithoutId(a, id) + WithoutId(init, id) + kept;
        { WithoutIdSnoc(init, last, id); assert b == init + [last]; }
        WithoutId(a, id) + WithoutId(b, id);
      }
    }
  }

  /** Each expense with another id is kept as many times as it occurs; those with the id are all dropped. */
  lemma {:induction false} WithoutIdCounts(es: seq<Expense>, id: int)
    ensures forall x :: multiset(WithoutId(es, id))[x] == if x.id == id then 0 else multiset(es)[x]
    ensures forall x :: x in WithoutId(es, id) <==> x in es && x.id != id
    decreases |es|
  {
    if es != [] {
      var init := es[..|es| - 1];
      var last := es[|es| - 1];
      WithoutIdCounts(init, id);
      assert es == init + [last];
      var kept := if last.id == id then [] else [last];
      assert multiset(es) == multiset(init) + multiset{last};
      assert multiset(WithoutId(es, id)) == multiset(WithoutId(init, id)) + multiset(kept);
    }
  }

  /** The amounts of the expenses with this id, summed left to right. */
  function AmountWithId(es: seq<Expense>, id: int): real
  {
    if es == [] then 0.0
    else AmountWithId(es[..|es| - 1], id) + (if es[|es| - 1].id == id then es[|es| - 1].amount else 0.0)
  }

  /** Filtering out an id takes exactly the amounts with that id off the day's spending. */
  lemma {:induction false} SpentWithoutId(es: seq<Expense>, id: int)
    ensures Spent(WithoutId(es, id)) == Spent(es) - AmountWithId(es, id)
    decreases |es|
  {
    if es != [] {
      var init := es[..|es| - 1];
      var last := es[|es| - 1];
      SpentWithoutId(init, id);
      if last.id == id {
        assert WithoutId(es, id) == WithoutId(init, id) + [];
        assert WithoutId(init, id) + [] == WithoutId(init, id);
      } else {
        SpentAppend(WithoutId(init, id), last);
      }
    }
  }

  /** Filtering out an id the list does not hold changes nothing. */
  lemma {:induction false} WithoutAbsentId(es: seq<Expense>, id: int)
    requires !HasId(es, id)
    ensures WithoutId(es, id) == es
    decreases |es|
  {
    if es != [] {
      var init := es[..|es| - 1];
      assert !HasId(init, id) by {
        forall k | 0 <= k < |init| ensures init[k].id != id {
          assert init[k] == es[k];
        }
      }
      WithoutAbsentId(init, id);
      assert es == init + [es[|es| - 1]];
    }
  }

  /** Filtering out the id of the expense just appended drops exactly that expense. */
  lemma WithoutAppended(es: seq<Expense>, e: Expense)
    ensures WithoutId(es + [e], e.id) == WithoutId(es, e.id)
  {
    assert (es + [e])[..|es|] == es;
  }

  /**
   Adding to the day at `idx` appends exactly the one expense at the end of
   that day's list, and leaves every other day's list, every day number and
   every share as they were, after recalculation too.
   */
  lemma AddExpenseEdits(days: seq<DayRecord>, idx: int, e: Expense)
    requires 0 <= idx < |days|
    ensures var r := Recalc(AddToDay(days, idx, e));
            && |r| == |days|
            && r[idx].expenses == days[idx].expenses + [e]
            && (forall j :: 0 <= j < |days| && j != idx ==> r[j].expenses == days[j].expenses)
            && (forall j :: 0 <= j < |days| ==> r[j].day == days[j].day && r[j].baseDaily == days[j].baseDaily)
  {
    RecalcFromKeepsSkeleton(AddToDay(days, idx, e), 0.0);
  }

  /**
   Changing only what day `idx` spends, by `delta`, leaves every earlier day
   alone, keeps that day's available amount, and lowers the remainder of that
   day and of every later day by exactly `delta` (later days see it through
   their carry).
   */
  lemma {:induction false} SpendingShift(days: seq<DayRecord>, edited: seq<DayRecord>, idx: int, delta: real, j: int)
    requires |edited| == |days|
    requires 0 <= idx < |days| && 0 <= j < |days|
    requires forall k :: 0 <= k < |days| ==> edited[k].day == days[k].day && edited[k].baseDaily == days[k].baseDaily
    requires forall k :: 0 <= k < |days| && k != idx ==> edited[k].expenses == days[k].expenses
    requires Spent(edited[idx].expenses) == Spent(days[idx].expenses) + delta
    ensures var before := Recalc(days);
            var after := Recalc(edited);
            && (j < idx ==> after[j] == before[j])
            && (j == idx ==> after[j].available == before[j].available)
            && (j > idx ==> after[j].available == before[j].available - delta)
            && (j >= idx ==> after[j].calculated == before[j].calculated - delta)
    decreases j
  {
    RecalcFromAt(days, 0.0, j);
    RecalcFromAt(edited, 0.0, j);
    RecalcFromKeepsSkeleton(days, 0.0);
    RecalcFromKeepsSkeleton(edited, 0.0);
    if j > 0 {
      SpendingShift(days, edited, idx, delta, j - 1);
    }
  }

  /**
   An expense of `e.amount` on day `idx` leaves every earlier day alone and
   lowers the remainder of that day and of every later day by exactly
   `e.amount`.
   */
  lemma AddExpenseShiftsBalances(days: seq<DayRecord>, idx: int, e: Expense, j: int)
    requires 0 <= idx < |days|
    requires 0 <= j < |days|
    ensures var before := Recalc(days);
            var after := Recalc(AddToDay(days, idx, e));
            && (j < idx ==> after[j] == before[j])
            && (j == idx ==> after[j].available == before[j].available)
            && (j > idx ==> after[j].available == before[j].available - e.amount)
            && (j >= idx ==> after[j].calculated == before[j].calculated - e.amount)
  {
    SpentAppend(days[idx].expenses, e);
    SpendingShift(days, AddToDay(days, idx, e), idx, e.amount, j);
  }

  /**
   Removing id `id` from day `idx` leaves every earlier day alone and raises
   the remainder of that day and of every later day by exactly what the
   removed expenses added up to.
   */
  lemma RemoveExpenseShiftsBalances(days: seq<DayRecord>, idx: int, id: int, j: int)
    requires 0 <= idx < |days|
    requires 0 <= j < |days|
    ensures var before := Recalc(days);
            var after := Recalc(RemoveFromDay(days, idx, id));
            var removed := AmountWithId(days[idx].expenses, id);
            && (j < idx ==> after[j] == before[j])
            && (j == idx ==> after[j].available == before[j].available)
            && (j > idx ==> after[j].available == before[j].available + removed)
            && (j >= idx ==> after[j].calculated == before[j].calculated + removed)
  {
    var removed := AmountWithId(days[idx].expenses, id);
    SpentWithoutId(days[idx].expenses, id);
    SpendingShift(days, RemoveFromDay(days, idx, id), idx, -removed, j);
  }

  /**
   Removing from the day at `idx` filters only that day's list: it drops every
   expense with the id and keeps every other one as often as it occurred;
   every other day's list, every day number and every share are kept.
   */
  lemma RemoveExpenseEdits(days: seq<DayRecord>, idx: int, id: int)
    requires 0 <= idx < |days|
    ensures var r := Recalc(RemoveFromDay(days, idx, id));
            && |r| == |days|
            && (forall x :: x in r[idx].expenses <==> x in days[idx].expenses && x.id != id)
            && (forall x :: multiset(r[idx].expenses)[x] == if x.id == id then 0 else multiset(days[idx].expenses)[x])
            && (forall j :: 0 <= j < |days| && j != idx ==> r[j].expenses == days[j].expenses)
            && (forall j :: 0 <= j < |days| ==> r[j].day == days[j].day && r[j].baseDaily == days[j].baseDaily)
  {
    RecalcFromKeepsSkeleton(RemoveFromDay(days, idx, id), 0.0);
    WithoutIdCounts(days[idx].expenses, id);
  }

  /** Removing an id the day does not hold changes no expense list, and a recalculated ledger not at all. */
  lemma RemoveMissingIdIsNoop(days: seq<DayRecord>, idx: int, id: int)
    requires 0 <= idx < |days| ==> !HasId(days[idx].expenses, id)
    ensures RemoveFromDay(days, idx, id) == days
    ensures days == Recalc(days) ==> Recalc(RemoveFromDay(days, idx, id)) == days
  {
    if 0 <= idx < |days| {
      WithoutAbsentId(days[idx].expenses, id);
    }
    assert forall j :: 0 <= j < |days| ==> RemoveFromDay(days, idx, id)[j] == days[j];
  }

  /** Filtering the new id out of the day it was added to leaves the skeleton the ledger had before the add. */
  lemma RemoveUndoesAddSkeleton(days: seq<DayRecord>, idx: int, e: Expense, recalculated: seq<DayRecord>)
    requires 0 <= idx < |days|
    requires !HasId(days[idx].expenses, e.id)
    requires SameSkeleton(recalculated, AddToDay(days, idx, e))
    ensures SameSkeleton(RemoveFromDay(recalculated, idx, e.id), days)
  {
    var removed := RemoveFromDay(recalculated, idx, e.id);
    forall j | 0 <= j < |days|
      ensures removed[j].day == days[j].day
      ensures removed[j].expenses == days[j].expenses
      ensures removed[j].baseDaily == days[j].baseDaily
    {
      if j == idx {
        WithoutAppended(days[idx].expenses, e);
        WithoutAbsentId(days[idx].expenses, e.id);
      }
    }
  }

  /**
   Round trip: on a recalculated ledger, adding an expense whose id the day
   does not hold yet and then removing that id gives the ledger back exactly.
   */
  lemma AddThenRemoveRestores(days: seq<DayRecord>, idx: int, e: Expense)
    requires days == Recalc(days)
    requires 0 <= idx < |days|
    requires !HasId(days[idx].expenses, e.id)
    ensures Recalc(RemoveFromDay(Recalc(AddToDay(days, idx, e)), idx, e.id)) == days
  {
    var added := AddToDay(days, idx, e);
    RecalcFromKeepsSkeleton(added, 0.0);
    RemoveUndoesAddSkeleton(days, idx, e, Recalc(added));
    RecalcOnlyReadsSkeleton(RemoveFromDay(Recalc(added), idx, e.id), days);
  }
}
