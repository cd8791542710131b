/**
 The day-by-day ledger and its carry-forward recalculation (`recalcDays`).

 Every day starts from its fixed share `baseDaily`, adds the remainder carried
 in from the previous day (0 for the first day), and subtracts what was spent
 on it; what is left is carried into the next day. Money is `real`: the model
 states the intended arithmetic, not IEEE doubles.
 */
module Ledger {

  /** One logged expense. */
  datatype Expense = Expense(id: int, amount: real, desc: string)

  /** One calendar day of the active period. */
  datatype DayRecord = DayRecord(
    day: int,                 // day of the month
    expenses: seq<Expense>,   // in entry order
    baseDaily: real,          // the day's own share, fixed at allocation
    available: real,          // baseDaily plus the carry from the previous day
    calculated: real          // available minus what was spent on the day
  )

  /** What was spent on a day: the amounts summed left to right, as `reduce` does. */
  function Spent(es: seq<Expense>): real
  {
    if es == [] then 0.0 else Spent(es[..|es| - 1]) + es[|es| - 1].amount
  }

  /** Sum of the `baseDaily` shares of `days`. */
  function SumBase(days: seq<DayRecord>): real
  {
    if days == [] then 0.0 else SumBase(days[..|days| - 1]) + days[|days| - 1].baseDaily
  }

  /** Everything spent over `days`. */
  function TotalSpent(days: seq<DayRecord>): real
  {
    if days == [] then 0.0 else TotalSpent(days[..|days| - 1]) + Spent(days[|days| - 1].expenses)
  }

  /** `a` and `b` agree, day by day, on everything recalculation does not overwrite. */
  predicate SameSkeleton(a: seq<DayRecord>, b: seq<DayRecord>)
  {
    |a| == |b| &&
    forall i :: 0 <= i < |a| ==>
      a[i].day == b[i].day && a[i].expenses == b[i].expenses && a[i].baseDaily == b[i].baseDaily
  }

  /** The carry a day receives: 0 for the first day, the previous day's remainder otherwise. */
  function CarryIn(r: seq<DayRecord>, i: int): real
    requires 0 <= i < |r|
  {
    if i == 0 then 0.0 else r[i - 1].calculated
  }

  /** The balances of `r` obey the carry-forward rule. */
  predicate Chained(r: seq<DayRecord>)
  {
    forall i {:trigger CarryIn(r, i)} :: 0 <= i < |r| ==>
      r[i].available == r[i].baseDaily + CarryIn(r, i) &&
      r[i].calculated == r[i].available - Spent(r[i].expenses)
  }

  /** The `map` callback of `recalcDays`, run over `days` with the running `carry`. */
  function RecalcFrom(days: seq<DayRecord>, carry: real): (r: seq<DayRecord>)
    ensures |r| == |days|
    decreases |days|
  {
    if days == [] then []
    else
      var availableToday := days[0].baseDaily + carry;
      var remainder := availableToday - Spent(days[0].expenses);
      [days[0].(available := availableToday, calculated := remainder)]
        + RecalcFrom(days[1..], remainder)
  }

  /** `recalcDays(days)`: the carry starts at 0. */
  function Recalc(days: seq<DayRecord>): (r: seq<DayRecord>)
    ensures |r| == |days|
    ensures |days| > 0 ==> r[0].available == days[0].baseDaily
  {
    RecalcFrom(days, 0.0)
  }

  /** Recalculation overwrites only `available` and `calculated`: length, day, expenses and baseDaily are kept. */
  lemma {:induction false} RecalcFromKeepsSkeleton(days: seq<DayRecord>, carry: real)
    ensures SameSkeleton(RecalcFrom(days, carry), days)
    decreases |days|
  {
    if days != [] {
      var remainder := days[0].baseDaily + carry - Spent(days[0].expenses);
      RecalcFromKeepsSkeleton(days[1..], remainder);
    }
  }

  /** Adding one expense at the end of a list adds its amount to what was spent. */
  lemma SpentAppend(es: seq<Expense>, e: Expense)
    ensures Spent(es + [e]) == Spent(es) + e.amount
  {
    assert (es + [e])[..|es|] == es;
  }

  /** Day `i` of `RecalcFrom(days, carry)` follows the carry rule. */
  lemma {:induction false} RecalcFromAt(days: seq<DayRecord>, carry: real, i: int)
    requires 0 <= i < |days|
    ensures RecalcFrom(days, carry)[i].available
         == days[i].baseDaily + (if i == 0 then carry else RecalcFrom(days, carry)[i - 1].calculated)
    ensures RecalcFrom(days, carry)[i].calculated
         == RecalcFrom(days, carry)[i].available - Spent(days[i].expenses)
    decreases i
  {
    if i > 0 {
      var remainder := days[0].baseDaily + carry - Spent(days[0].expenses);
      RecalcFromAt(days[1..], remainder, i - 1);
    }
  }

  /** The recalculated ledger obeys the carry rule. */
  lemma RecalcIsChained(days: seq<DayRecord>)
    ensures Chained(Recalc(days))
  {
    var r := Recalc(days);
    RecalcFromKeepsSkeleton(days, 0.0);
    forall i | 0 <= i < |r|
      ensures r[i].available == r[i].baseDaily + CarryIn(r, i)
      ensures r[i].calculated == r[i].available - Spent(r[i].expenses)
    {
      RecalcFromAt(days, 0.0, i);
    }
  }

  lemma {:induction false} ChainedAgreeAt(a: seq<DayRecord>, b: seq<DayRecord>, i: int)
    requires SameSkeleton(a, b) && Chained(a) && Chained(b)
    requires 0 <= i < |a|
    ensures a[i] == b[i]
    decreases i
  {
    if i > 0 {
      ChainedAgreeAt(a, b, i - 1);
      assert CarryIn(a, i) == a[i - 1].calculated == b[i - 1].calculated == CarryIn(b, i);
    }
    assert a[i].available == a[i].baseDaily + CarryIn(a, i);
    assert b[i].available == b[i].baseDaily + CarryIn(b, i);
  }

  /**
   The carry rule determines the balances: a ledger is the recalculation of
   `days` exactly when it keeps the skeleton of `days` and is chained.
   */
  lemma RecalcCharacterization(days: seq<DayRecord>, r: seq<DayRecord>)
    ensures r == Recalc(days) <==> SameSkeleton(r, days) && Chained(r)
  {
    var q := Recalc(days);
    RecalcIsChained(days);
    RecalcFromKeepsSkeleton(days, 0.0);
    if SameSkeleton(r, days) && Chained(r) {
      forall i | 0 <= i < |r| ensures r[i] == q[i] {
        ChainedAgreeAt(r, q, i);
      }
    }
  }

  /** The result depends only on the skeleton (day, expenses, baseDaily). */
  lemma RecalcOnlyReadsSkeleton(a: seq<DayRecord>, b: seq<DayRecord>)
    requires SameSkeleton(a, b)
    ensures Recalc(a) == Recalc(b)
  {
    RecalcCharacterization(b, Recalc(a));
    RecalcIsChained(a);
    RecalcFromKeepsSkeleton(a, 0.0);
  }

  /** Recalculating twice is recalculating once. */
  lemma RecalcIdempotent(days: seq<DayRecord>)
    ensures Recalc(Recalc(days)) == Recalc(days)
  {
    RecalcFromKeepsSkeleton(days, 0.0);
    RecalcOnlyReadsSkeleton(Recalc(days), days);
  }

  /** Day `j`'s balances in closed form: shares so far minus spending so far. */
  lemma {:induction false} RecalcClosedForm(days: seq<DayRecord>, j: int)
    requires 0 <= j < |days|
    ensures Recalc(days)[j].available == SumBase(days[..j + 1]) - TotalSpent(days[..j])
    ensures Recalc(days)[j].calculated == SumBase(days[..j + 1]) - TotalSpent(days[..j + 1])
    decreases j
  {
    RecalcFromAt(days, 0.0, j);
    assert days[..j + 1][..j] == days[..j];
    if j > 0 {
      RecalcClosedForm(days, j - 1);
    }
  }

  /** Telescoping: the last remainder is all shares minus all spending. */
  lemma FinalRemainderTelescopes(days: seq<DayRecord>)
    requires |days| > 0
    ensures Recalc(days)[|days| - 1].calculated == SumBase(days) - TotalSpent(days)
  {
    RecalcClosedForm(days, |days| - 1);
    assert days[..|days|] == days;
  }

  /** One step of `RecalcFrom`: the first day's record, then the rest with its remainder as carry. */
  lemma RecalcFromStep(days: seq<DayRecord>, carry: real)
    requires |days| > 0
    ensures RecalcFrom(days, carry)
         == [days[0].(available := days[0].baseDaily + carry,
                      calculated := days[0].baseDaily + carry - Spent(days[0].expenses))]
            + RecalcFrom(days[1..], days[0].baseDaily + carry - Spent(days[0].expenses))
  {
  }

  /** The loop of `RecalcDays` keeps its invariant when it emits day `i`. */
  lemma RecalcFromSuffixStep(days: seq<DayRecord>, i: int, carry: real, done: seq<DayRecord>)
    requires 0 <= i < |days|
    ensures var remainder := days[i].baseDaily + carry - Spent(days[i].expenses);
            var record := days[i].(available := days[i].baseDaily + carry, calculated := remainder);
            (done + [record]) + RecalcFrom(days[i + 1..], remainder) == done + RecalcFrom(days[i..], carry)
  {
    RecalcFromStep(days[i..], carry);
    assert days[i..][1..] == days[i + 1..];
  }

  /** The `reduce` of `recalcDays` as a loop. */
  method SpentToday(es: seq<Expense>) returns (sum: real)
    ensures sum == Spent(es)
  {
    sum := 0.0;
    for k := 0 to |es|
      invariant sum == Spent(es[..k])
    {
      assert es[..k + 1][..k] == es[..k];
      sum := sum + es[k].amount;
    }
    assert es[..|es|] == es;
  }

  /** `recalcDays`: one pass over the days, threading the mutable `carry`. */
  method RecalcDays(days: seq<DayRecord>) returns (r: seq<DayRecord>)
    ensures r == Recalc(days)
  {
    var carry := 0.0;
    r := [];
    assert days[0..] == days;
    for i := 0 to |days|
      invariant |r| == i
      invariant r + RecalcFrom(days[i..], carry) == Recalc(days)
    {
      var availableToday := days[i].baseDaily + carry;
      var spentToday := SpentToday(days[i].expenses);
      var remainder := availableToday - spentToday;
      var record := days[i].(available := availableToday, calculated := remainder);
      RecalcFromSuffixStep(days, i, carry, r);
      carry := remainder;
      r := r + [record];
    }
    assert days[|days|..] == [];
    assert r + [] == r;
  }
}
