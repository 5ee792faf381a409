# Credit-card benefit tracker, modelled in Dafny

The tracker is a one-page Streamlit app. It records which credit-card
statement credits have been used in the current period. The cards are Amex
Gold, Chase Sapphire Reserve and Citi Strata Premier. The page shows running
totals of the value claimed.

All state is one per-session dictionary, `st.session_state.data`. It has ten
fixed keys and is created all-zero on the first run of the script. After that,
every run of the page script overwrites it key by key with what the widgets
return:

- four monthly checkboxes store 0 or a fixed unit (10, 10, 7, 20);
- the Resy, Edit and Exclusive Tables sliders and the travel number input
  store a value within their bounds (50, 250, 150, 300);
- the Citi checkbox stores 0 or 100.

From the dictionary the page computes an Amex subtotal, the travel credit
still available, a projected annual value and an unweighted current-period
value. It also shows how many days are left in the month and which half of
the year it is.

The project has five modules:

- `Benefits` (`benefits.dfy`): the ten benefit ids, the widget bound to each
  one with its constant, each credit's period, and the annualisation weight.
- `Ledger` (`ledger.dfy`): the dictionary as `map<BenefitId, int>`. The
  `Session` class holds it together with the "already created" flag. Its
  `Rerun` method performs the writes in page order. The pure functions
  `AfterChecklist` and `Written` state what those writes produce. `Defaults`
  gives the widget start values read back from the ledger. The lemmas prove
  the reachable-state invariant, the checkbox round trip and that a run with
  no user change leaves the ledger unchanged.
- `Totals` (`totals.dfy`): the aggregates, written out term by term as on the
  page. They are tied to independent weighted and unweighted sums over the
  nine tracked benefits. The lemmas prove the bounds against the hard-coded
  reference figure of 1864.
- `Calendar` (`calendar.dfy`): Gregorian month lengths, days left in the
  month, and the half of the year.
- `Page` (`page.dfy`): the figures of one run as the page computes them,
  including the stale Amex subtotal described under Findings, and the
  corrected subtotal beside it.

Two facts about the code shape the model:

- The code has no get, set or reset operation, and no error for an unknown id
  or an out-of-range amount. The only writer is the script run, and the widget
  bounds are the only guard. So `Rerun` takes the bounds as the precondition
  `InRange`, and the ids are a datatype, so an unknown key cannot arise.
- The current-period total adds nine amounts and leaves out `amex_hotel`,
  which is 0 on every reachable ledger (`WellFormed`).

## Model

| member | source | states |
|---|---|---|
| Benefits.EveryIdIsAKey | app.py:31-43 | every benefit id is one of the ledger's keys |
| Benefits.AllBenefitsAreTen | app.py:31-43 | the ledger has exactly ten keys |
| Benefits.TrackedInSumOrderListsEachOnce | app.py:160-170 | the projected sum lists each of the nine tracked benefits exactly once, and every benefit except `amex_hotel` is among them |
| Ledger.Initial | app.py:31-43 | the initial dictionary has exactly the ten keys, all at 0, and satisfies the reachable-state invariant |
| Ledger.StartsTicked | app.py:57-60 | for a checkbox benefit only: the checkbox starts ticked when its amount is positive (Citi, line 140: when it is exactly 100); for an amount its checkbox can have stored, ticked exactly when the amount is the unit |
| Ledger.Defaults | app.py:57-60 | the checkbox start values (`> 0`, Citi `== 100`, line 140) and the slider and number-input start values (lines 101, 112, 122, 129) are legal widget values; writing them back reproduces every tracked amount |
| Ledger.AfterChecklist | app.py:63-73 | after the checklist writes, the four monthly benefits hold their checkbox's target (unit or 0) and every other key is unchanged |
| Ledger.ChecklistKeepsWellFormed | app.py:63-73 | the checklist writes keep a reachable ledger within bounds, so the ledger read at line 85 is well formed |
| Ledger.Written | app.py:63-146 | after a run every tracked key holds its widget's target: unit or 0 for a checkbox, the returned number otherwise. No key is added or removed, and `amex_hotel` keeps its value |
| Ledger.RunKeepsWellFormed | app.py:101-130 | with in-bounds slider and number-input values, a run keeps every key within its widget's range and `amex_hotel` at 0 |
| Ledger.NoChangeRunIsIdentity | app.py:57-73 | a rerun in which the user changes no widget leaves the ledger exactly as it was |
| Ledger.LastRunWins | app.py:63-146 | writes overwrite rather than accumulate: two runs give the ledger of the second run alone |
| Ledger.RunIsIdempotent | app.py:63-146 | running twice with the same widget values gives the same ledger as running once; a case of `LastRunWins` |
| Ledger.WidgetsResumeWhereTheyWere | app.py:57-146 | on the next run every widget starts from the value it returned on this run |
| Ledger.Session.Current | app.py:31-43 | the ledger a run starts from, the stored one or the initial one on the first run, is well formed |
| Ledger.Session.constructor | app.py:31 | a new session has no ledger yet |
| Ledger.Session.EnsureData | app.py:31-43 | the first run creates the all-zero ledger, and later runs keep the stored one untouched |
| Ledger.Session.Rerun | app.py:63-146 | one script run: the new ledger is `Written` of the old one, every tracked key holds its widget's target, `amex_hotel` is 0, and the invariant holds |
| Totals.AmexSubtotal | app.py:85-88 | on a reachable ledger, dining + Uber + Dunkin' + Resy lies in [0, 77], and it is 77 iff all four are at their caps |
| Totals.TravelRemaining | app.py:115 | remaining plus used travel credit is 300, and within the input's bounds the remainder lies in [0, 300] |
| Totals.ProjectedTotal | app.py:160-170 | the projected total is the weighted sum over the nine tracked benefits, each weighted by its period's count per year (12, 2 or 1) |
| Totals.CurrentPeriodTotal | app.py:173-183 | the current-period total is the unweighted sum over the same nine benefits |
| Totals.TotalPossibleIsAnnualCaps | app.py:159 | the hard-coded reference figure is 1864, which is exactly the sum of weight × cap over the tracked benefits |
| Totals.WeightedSumBounded | app.py:160-170 | a weighted sum of in-bounds amounts is between 0 and the sum of annual caps, and reaches that sum iff every amount is at its cap |
| Totals.PlainAtMostWeighted | app.py:173-183 | with non-negative amounts the unweighted sum is between 0 and the weighted sum |
| Totals.ProjectedWithinTotalPossible | app.py:159-170 | on a reachable ledger the projected total lies in [0, 1864], and equals 1864 iff every tracked benefit is at its cap |
| Totals.CurrentAtMostProjected | app.py:160-183 | on a reachable ledger 0 ≤ current-period total ≤ projected total |
| Calendar.DaysInMonth | app.py:48 | Gregorian month length between 28 and 31; 28 iff non-leap February, 29 iff leap February, 30 iff April, June, September or November |
| Calendar.DaysLeft | app.py:48-49 | days left lie in [0, 30], 0 iff today is the month's last day, 30 iff it is the first of a 31-day month |
| Calendar.HalfYear | app.py:50 | the label is "First Half" iff the month is January to June, "Second Half" iff July to December |
| Calendar.SixMonthsLaterIsOtherHalf | app.py:50 | a month and the month six later always get different half labels |
| Calendar.MonthsMakeAYear | app.py:48 | the twelve month lengths add up to 366 days in a leap year and 365 otherwise |
| Calendar.MonthLengthsRepeatEvery400Years | app.py:48 | month lengths repeat with the 400-year Gregorian cycle |
| Page.StaleAmexSubtotal | app.py:85-88 | the subtotal as computed is off from the subtotal of the run's final ledger by exactly the Resy change of this run |
| Page.StaleAmexSubtotalMissesResyChange | app.py:85-102 | on a fresh ledger with the Resy slider moved to 50, the page shows 0 while the run stores 50 |
| Page.StaleAmexValueExceedsPeriodTotal | app.py:85-185 | with Resy moved from 50 to 0 and every checkbox off, the page's Amex value is 50 while its current-period total is 0 |
| Page.ShownAmexSubtotal | app.py:85-102 | the Amex subtotal of the run's final ledger is the four Amex widgets' current values (10/10/7 or 0, plus Resy), and lies in [0, 77] |
| Page.Render | app.py:46-185 | the figures of one run as the page computes them: days left is today's month length minus today's day, in [0, 30]; half label by month ≤ 6; the stale Amex value in [0, 77] and off from the corrected subtotal by this run's Resy change; the corrected subtotal within the period total; travel remaining in [0, 300]; the projected and period totals are those of the ledger the run ends with, that is its weighted and unweighted sums, and 0 ≤ period total ≤ projected ≤ 1864 |

## Left out

- Rendering: page configuration, CSS, titles, markdown, tabs, columns, metrics, captions and the info, success and warning boxes are display only.
- Widget internals: how Streamlit's slider and number input clamp their values is library behaviour. The bounds are the precondition `InRange` on the values the widgets return. The model does not capture that a Streamlit checkbox uses its `value=` argument only when the widget is first created. The widgets' returned values are parameters of `Rerun`.
- Progress-bar ratios (`resy_val / 50` and the like) are floating-point display values.
- The wall clock and month names: `datetime.now()` becomes the `today` parameter, and `calendar.month_name` is a display string.
- Session lifetime and persistence: the dictionary ends with the browser session, and nothing is stored. The unused `pandas` import is not modelled.
- Semi-annual credits are not reset when the half-year changes, neither in the code nor in the model.
- The page computes the projected total (`current_total`) and `total_possible` but never displays them. The model still returns the projected figure from `Render` and proves its bounds.

## Findings

| source | as written | input that shows it | evidently intended | confidence | as-written member | corrected member |
|---|---|---|---|---|---|---|
| app.py:85-88 | the Amex subtotal reads `amex_resy` before line 102 stores the Resy slider's value, so it shows the previous run's Resy amount | a fresh session, with the Resy slider moved from 0 to 50: the Amex "value extracted" shows $0, not $50 | the subtotal of the amounts the widgets show on this run | medium, not executed | Page.StaleAmexSubtotal | Page.ShownAmexSubtotal |
