/**
 One run of the page as a whole: from the ledger it starts with, the widget
 values and today's date, the figures the page shows.
 */
module Page {
  import opened Benefits
  import opened Ledger
  import opened Totals
  import opened Calendar

  /**
   The Amex subtotal as the page computes it: after the checklist has been
   written but before the Resy slider's value is stored, so it still counts the
   Resy amount of the previous run.  It is off by exactly the change the user
   made to the slider.
   */
  function StaleAmexSubtotal(before: Data, inp: Inputs): (r: int)
    requires Complete(before)
    ensures r == AmexSubtotal(Written(before, inp)) - inp.resy + before[AmexResy]
  {
    AmexSubtotal(AfterChecklist(before, inp))
  }

  /** Moving the Resy slider from 0 to 50 on a fresh ledger leaves the shown Amex subtotal at 0. */
  lemma StaleAmexSubtotalMissesResyChange()
    ensures var inp := Inputs(false, false, false, false, 50, 0, 0, 0, false);
            StaleAmexSubtotal(Initial(), inp) == 0 && ShownAmexSubtotal(Initial(), inp) == 50
  {
  }

  /**
   Moving the Resy slider from 50 back to 0, with every checkbox off, leaves
   the page showing an Amex value of 50 beside a current-period total of 0.
   */
  lemma StaleAmexValueExceedsPeriodTotal()
    ensures var before := Initial()[AmexResy := 50];
            var inp := Inputs(false, false, false, false, 0, 0, 0, 0, false);
            WellFormed(before) && InRange(inp)
            && StaleAmexSubtotal(before, inp) == 50
            && CurrentPeriodTotal(Written(before, inp)) == 0
  {
  }

  /**
   The Amex subtotal of the ledger the run ends with: the four Amex widgets'
   values as they stand on this run, whatever the ledger held before, and at
   most 77 with legal widget values.
   */
  function ShownAmexSubtotal(before: Data, inp: Inputs): (r: int)
    requires Complete(before)
    ensures r == (if inp.dining then 10 else 0) + (if inp.uber then 10 else 0)
               + (if inp.dunkin then 7 else 0) + inp.resy
    ensures InRange(inp) ==> 0 <= r <= 77
  {
    var after := Written(before, inp);
    assert after[AmexDining] == Target(inp, AmexDining);
    assert after[AmexUber] == Target(inp, AmexUber);
    assert after[AmexDunkin] == Target(inp, AmexDunkin);
    assert after[AmexResy] == Target(inp, AmexResy);
    AmexSubtotal(after)
  }

  /** What one run of the page computes for display. */
  datatype Dashboard = Dashboard(
    daysLeft: int,          // sidebar caption
    half: string,           // semi-annual slider labels
    amexValue: int,         // Amex Gold "value extracted", as the page computes it
    travelRemaining: int,   // Sapphire travel caption
    projected: int,         // projected annual value (computed, not shown)
    periodTotal: int)       // "total value marked as used"

  /**
   The figures of one run, as the page computes them: the days left in today's
   month, the half-year label, and the totals of the ledger the run ends with.
   With legal widget values and a real date they are all in range.  The Amex value is the stale one: it
   differs from the corrected subtotal by the Resy change of this run, and only
   the corrected subtotal is bounded by the current-period total.  The
   current-period total stays below the projected one, which stays below the
   hard-coded reference figure.
   */
  function Render(before: Data, inp: Inputs, today: Date): (r: Dashboard)
    requires WellFormed(before) && InRange(inp) && ValidDate(today)
    ensures r.daysLeft + today.day == DaysInMonth(today.year, today.month)
    ensures 0 <= r.daysLeft <= 30
    ensures r.half == "First Half" <==> today.month <= 6
    ensures r.half == "Second Half" <==> today.month > 6
    ensures 0 <= r.amexValue <= 77
    ensures r.amexValue == ShownAmexSubtotal(before, inp) - inp.resy + before[AmexResy]
    ensures 0 <= ShownAmexSubtotal(before, inp) <= r.periodTotal
    ensures before[AmexResy] == inp.resy ==> r.amexValue <= r.periodTotal
    ensures 0 <= r.travelRemaining <= 300 && r.travelRemaining + inp.travel == 300
    ensures r.projected == WeightedSum(Written(before, inp), TrackedInSumOrder)
    ensures r.periodTotal == PlainSum(Written(before, inp), TrackedInSumOrder)
    ensures r.projected == ProjectedTotal(Written(before, inp))
    ensures r.periodTotal == CurrentPeriodTotal(Written(before, inp))
    ensures 0 <= r.periodTotal <= r.projected <= TotalPossible
  {
    var after := Written(before, inp);
    RunKeepsWellFormed(before, inp);
    ChecklistKeepsWellFormed(before, inp);
    CurrentAtMostProjected(after);
    ProjectedWithinTotalPossible(after);
    assert 0 <= after[CsrTravel] && 0 <= after[CsrEditHotel] && 0 <= after[CsrDiningTables]
           && 0 <= after[CsrDoordashNc] && 0 <= after[CitiHotel] by {
      StorableWithinCap(CsrTravel, after[CsrTravel]);
      StorableWithinCap(CsrEditHotel, after[CsrEditHotel]);
      StorableWithinCap(CsrDiningTables, after[CsrDiningTables]);
      StorableWithinCap(CsrDoordashNc, after[CsrDoordashNc]);
      StorableWithinCap(CitiHotel, after[CitiHotel]);
    }
    Dashboard(
      DaysLeft(today),
      HalfYear(today.month),
      StaleAmexSubtotal(before, inp),
      TravelRemaining(inp.travel),
      ProjectedTotal(after),
      CurrentPeriodTotal(after))
  }
}
