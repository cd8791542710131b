/**
 Small rules the daily view derives from the ledger: the progress bar's
 percentage and colour class, the lookup of today's record, and the bounds
 of the previous/next day buttons.
 */
module DayView {
  import opened Ledger

  /** `calculateProgress`: share of the day's available amount already spent, capped at 100. */
  function CalculateProgress(available: real, spent: real): (p: real)
    ensures p <= 100.0
    ensures available <= 0.0 ==> p == 100.0
    ensures available > 0.0 ==> (p == 100.0 <==> spent >= available)
    ensures available > 0.0 && spent < available ==> p * available == spent * 100.0
    ensures available > 0.0 && spent >= 0.0 ==> p >= 0.0
  {
    if available <= 0.0 then 100.0
    else
      var progress := spent / available * 100.0;
      assert progress * available == spent * 100.0;
      if progress < 100.0 then progress else 100.0
  }

  /** `getProgressClass`. */
  function ProgressClass(progress: real): (c: string)
    ensures c == "danger" <==> progress >= 100.0
    ensures c == "warning" <==> 80.0 <= progress < 100.0
    ensures c == "" <==> progress < 80.0
  {
    if progress >= 100.0 then "danger"
    else if progress >= 80.0 then "warning"
    else ""
  }

  /**
   The bar is red exactly when nothing was available or the day's spending
   reached what was available, and amber exactly when spending is at least 80%
   but under 100% of a positive amount.
   */
  lemma ProgressClassMeaning(available: real, spent: real)
    ensures ProgressClass(CalculateProgress(available, spent)) == "danger"
        <==> available <= 0.0 || spent >= available
    ensures ProgressClass(CalculateProgress(available, spent)) == "warning"
        <==> available > 0.0 && 0.8 * available <= spent < available
  {
    if available > 0.0 && spent < available {
      var p := CalculateProgress(available, spent);
      assert p * available == spent * 100.0;
      assert p >= 80.0 <==> p * available >= 80.0 * available;
    }
  }

  /** On a recalculated day, the bar is red exactly when the day is not in credit. */
  lemma DangerMeansNoRemainder(days: seq<DayRecord>, i: int)
    requires 0 <= i < |days|
    ensures var d := Recalc(days)[i];
            var red := ProgressClass(CalculateProgress(d.available, Spent(d.expenses))) == "danger";
            red <==> d.available <= 0.0 || d.calculated <= 0.0
  {
    RecalcIsChained(days);
    var d := Recalc(days)[i];
    assert d.calculated == d.available - Spent(d.expenses) by {
      assert d.available == d.baseDaily + CarryIn(Recalc(days), i);
    }
    ProgressClassMeaning(d.available, Spent(d.expenses));
  }

  /** `days.findIndex(d => d.day === today)`: the first match, or -1. */
  function FindDayIndex(days: seq<DayRecord>, today: int): (r: int)
    ensures -1 <= r < |days|
    ensures r == -1 <==> forall j :: 0 <= j < |days| ==> days[j].day != today
    ensures r >= 0 ==> days[r].day == today && forall j :: 0 <= j < r ==> days[j].day != today
    decreases |days|
  {
    if days == [] then -1
    else if days[0].day == today then 0
    else
      var k := FindDayIndex(days[1..], today);
      assert forall j :: 1 <= j < |days| ==> days[1..][j - 1] == days[j];
      if k == -1 then -1 else k + 1
  }

  /** The previous-day button is disabled. */
  predicate PrevDisabled(currentDayIndex: int)
  {
    currentDayIndex <= 0
  }

  /** The next-day button is disabled. */
  predicate NextDisabled(currentDayIndex: int, length: int)
  {
    currentDayIndex >= length - 1
  }

  /**
   The index after a click on previous (`forward` false) or next (`forward`
   true); a click on a disabled button does nothing.
   */
  function Navigate(currentDayIndex: int, length: int, forward: bool): (r: int)
    ensures 0 <= currentDayIndex < length ==> 0 <= r < length
    ensures forward && !NextDisabled(currentDayIndex, length) ==> r == currentDayIndex + 1
    ensures !forward && !PrevDisabled(currentDayIndex) ==> r == currentDayIndex - 1
    ensures r == currentDayIndex
        <==> (if forward then NextDisabled(currentDayIndex, length) else PrevDisabled(currentDayIndex))
  {
    if forward then
      if NextDisabled(currentDayIndex, length) then currentDayIndex else currentDayIndex + 1
    else
      if PrevDisabled(currentDayIndex) then currentDayIndex else currentDayIndex - 1
  }
}
