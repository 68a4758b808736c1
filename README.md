# Vietnamese salary and personal-income-tax engine, modelled in Dafny

This project models the calculation core of a browser-based Vietnamese
gross/net salary calculator (`script.js`). The calculator supports three tax
regimes:

- 2025;
- the first half of 2026, which keeps the 2025 tax table but raises the
  family deductions;
- the second half of 2026, which adds a new five-bracket table.

For a given salary, number of dependents, wage region and insurance-base
choice, the core computes:

- the mandatory insurance: social (BHXH 8%) and health (BHYT 1.5%), capped
  at 20 base salaries; unemployment (BHTN 1%), capped at 20 regional minimum
  wages of the regime's year;
- the taxable income left after insurance and family deductions;
- the progressive personal income tax, with its bracket-by-bracket breakdown;
- the take-home pay.

It also inverts the conversion: given a take-home pay, it finds the gross by
a doubling search followed by bisection.

The modules are:

- `config.dfy` (`Config`): the regime tables, the minimum-wage tables and their
  selection by year key, the insurance rates and caps, and the invariant
  `WellFormed` that every bracket table satisfies.
- `tax.dfy` (`Tax`): the progressive tax.
  - `calculatePIT` and `getTaxBreakdown` are loop methods, each proved equal to
    a specification function (`Pit`, `Breakdown`).
  - The properties are proved about those functions: monotone, at most 35%
    marginal, continuous at every bound, and the breakdown sums to the tax.
- `salary.dfy` (`Salary`): `calculateFromGross` as a function returning the
  full result record, with insurance, monotonicity and regime-comparison
  lemmas.
- `solver.dfy` (`Solver`): `calculateFromNet` as methods with loops (doubling,
  bisection, final snap), a round-trip theorem, and the three-regime comparison.

Money is modelled as exact `real`. The active year is the source's mutable
global `currentYear`; here it is an explicit `Regime` parameter. `YearKey`
gives the key string the source would hold, so the "starts with 2026" test of
`getRegionMinWage` is modelled literally.

Main results:

- `CalculateFromNet` returns exactly the requested take-home pay whenever
  that pay is positive and below 2^100, and either the first guess (twice the
  pay) or the safety limit of 10,000,000,000 pays more than it. The doubling
  phase then ends on an interval that straddles the target and is no wider
  than the larger of the target and 1e10, and the 100 halvings bring it
  under 1.
- With no negative dependents that condition always holds, whatever the
  insurance base (`SearchConverges`). With the gross itself as insurance
  base and no negative dependents the first guess always pays more than the
  target, so the doubling phase stops at once (`FirstGuessStraddles`).
- `RoundTrip`: converting any gross below 2^100 to a positive net and back
  recovers the gross to within 2.

## Model

| member | source | states |
|---|---|---|
| Config.TaxConfig | script.js:123-163 | 2025 and 2026-h1 have seven brackets, 2026-h2 five; both deductions are positive |
| Config.TablesWellFormed | script.js:123-163 | every regime's table has only its last bound infinite, increasing bounds, rates from 0 to 35%, a first subtract of 0, and subtract constants chosen so that adjacent formulas agree at each bound |
| Config.GetRegionMinWage | script.js:106-111 | the table covers regions 1-4 with positive wages, and is the 2026 table exactly when the key starts with "2026" |
| Config.MinWageByRegime | script.js:106-111 | the 2025 key selects the 2025 wages; both 2026 periods select the 2026 wages |
| Config.RegionMinWage | script.js:90-103 | every regional minimum wage is positive |
| Config.UnemploymentCap | script.js:473-475 | the unemployment-insurance cap (20 regional minimum wages) is positive |
| Tax.FirstFit | script.js:293-298 | the scan position is the first bracket whose bound holds the income, and no earlier bracket holds it |
| Tax.CalculatePit | script.js:288-300 | the loop returns `Pit`: 0 for a non-positive income, otherwise income × rate − subtract of the first bracket holding it |
| Tax.PitUsesFirstFittingBracket | script.js:293-298 | for a positive income a holding bracket always exists (the last is unbounded), none before it holds the income, and the tax is its formula |
| Tax.PitNonNegative | script.js:288-300 | the tax is never negative |
| Tax.PitMonotone | script.js:288-300 | the tax never decreases as taxable income grows, and grows by at most 35% of any increase |
| Tax.PitContinuousAtBoundary | script.js:294-295 | at every finite bound the formulas of the bracket below and above give the same tax, so the tax has no jump |
| Tax.GetTaxBreakdown | script.js:302-348 | the loop returns `Breakdown`: the non-empty slices of the income, bracket by bracket, stopping once the income is covered |
| Tax.BreakdownSumsToPit | script.js:302-348 | the slice taxes add up to the total tax of `calculatePIT` |
| Tax.BreakdownSlices | script.js:302-348 | empty for a non-positive income. Otherwise each entry lies in its own bracket: positive income no wider than the bracket, the bracket's rate in percent, tax = income × rate. Levels strictly increase and the slice incomes add up to the taxable income |
| Salary.InsuranceSalary | script.js:465-468 | the insurance base is the gross, except with the "other" option and a positive declared amount: then it is exactly that amount |
| Salary.CalculateFromGross | script.js:463-505 | the record keeps the gross. Pre-tax income is gross minus the three contributions. The deduction is personal plus dependents × dependent allowance. Taxable income is max(0, pre-tax − deduction). The tax is `Pit` of it and non-negative. Net + contributions + tax = gross |
| Salary.InsuranceCaps | script.js:470-480 | below its cap each contribution is rate × base; above it, rate × cap (3,744,000 social, 702,000 health, 1% of 20 regional minimum wages for unemployment) |
| Salary.UnemploymentCapByRegime | script.js:473-475 | the unemployment cap uses the 2025 wages for 2025 and the 2026 wages for both 2026 periods |
| Salary.InsuranceBounded | script.js:477-480 | for a non-negative gross each contribution lies between 0 and rate × base |
| Salary.InsuranceTotalCapped | script.js:470-480 | whatever the base, the three contributions together never exceed 5,508,000 (3,744,000 + 702,000 + 1% of 20 times the highest regional minimum wage) |
| Salary.NetFloor | script.js:463-505 | with no negative dependents, take-home pay is at least 58.175% of a non-negative gross less 5,508,000 |
| Salary.NetAtMostGross | script.js:489-492 | take-home pay never exceeds a non-negative gross |
| Salary.InsuranceMonotone | script.js:465-480 | total insurance never decreases with the gross, and grows by at most 10.5% of any increase |
| Salary.NetMonotone | script.js:463-505 | take-home pay grows with the gross: by no more than the increase, and by at least 58.175% of it |
| Salary.ZeroGross | script.js:463-505 | a zero gross with the gross as insurance base gives zero taxable income, zero tax and zero net |
| Salary.Example2025 | script.js:463-505 | 20,000,000 gross in 2025, region 1, no dependents: insurance 1,600,000 + 300,000 + 200,000, taxable 6,900,000, tax 440,000, net 17,460,000 |
| Salary.Periods2026ShareBase | script.js:138-161 | the two 2026 periods give the same contributions, deductions and taxable income; only the table differs |
| Salary.TaxNotHigherIn2026H1 | script.js:124-150 | with non-negative dependents, 2026-h1 never yields more taxable income or more tax than 2025 for the same salary |
| Solver.Snap | script.js:549-551 | only the net may change; within 5 of the target it becomes the target, otherwise it is kept; either way it moves by less than 5, so the snapped net may differ from gross − insurance − tax by less than 5 |
| Solver.ExpandBracket | script.js:518-530 | the doubling loop terminates with target ≤ low, high = 2 × low (so high is at least the first guess), low at most 2 × target or 1e10, low either the target itself or at least the first guess, and net(low) ≤ target. net(high) > target unless the safety stop fired (high > 1e10) |
| Solver.NarrowingStep | script.js:533-546 | a round that does not stop on a straddling interval at most `bound` wide needs half the bound to be at least 1, and the half kept fits within it |
| Solver.Bisect | script.js:533-546 | the at-most-100-round bisection keeps low ≤ high and net(low) ≤ target, and net(high) > target whenever the initial interval straddled the target. It returns the record of a gross inside the interval. When the interval straddles the target and is narrower than 2^100, that record's net is within 1 of the target |
| Solver.UpperEndStraddles | script.js:518-530 | the doubling phase's upper end pays more than the target whenever the first guess or the safety limit does |
| Solver.SnappedSolution | script.js:549-553 | snapping the bisection's record gives a result satisfying `NetSolution` |
| Solver.CalculateFromNet | script.js:507-554 | the result is the snapped record of its own gross, and that gross is at least the target. For a positive target below 2^100 that the first guess (2 × target) or 1e10 pays more than, the record's net is within 1 of the target and the reported net is exactly the target |
| Solver.SearchConverges | script.js:518-546 | with no negative dependents and any insurance base, every positive target below 2^100 is paid more by the first guess or by 1e10, so the search lands on it |
| Solver.FirstGuessStraddles | script.js:518-526 | with the gross as insurance base and no negative dependents, net(2 × target) > target, so the doubling phase stops at once |
| Solver.RoundTrip | script.js:507-554 | for any gross below 2^100 whose net is positive (no negative dependents), solving for that net reports it exactly, at a gross within 2 of the original |
| Solver.CalculateComparison | script.js:395-427 | for any non-zero income (positive when solving for a net), each of the three regimes is computed independently: gross-to-net results equal `CalculateFromGross` per regime, and net-to-gross results each satisfy `NetSolution` for their regime |

## Left out

- DOM reading, input parsing (`parseCurrency`), formatting, loading
  animations and all UI updates. The inputs arrive as parameters.
- Solver.CalculateFromNet: requires a positive target. The caller returns
  early on `income === 0` (script.js:357, 395). Without that guard the
  doubling loop (script.js:518-530) never ends for a target of 0, because
  `high` stays 0. For a negative target each doubling moves the guess further
  below the target, so the guess never passes 1e10 and the loop never ends
  either. Negative amounts are ruled out only if the input keeps its digits
  alone. `formatCurrencyInput` (script.js:272-278) strips everything else, but
  nothing in script.js calls it; it is wired to the input outside that file.
- Solver.CalculateComparison: any non-zero income is accepted in
  gross-to-net mode, as at script.js:395; in net-to-gross mode the income
  must be positive, for the reason given for `CalculateFromNet` above.
- The `label` string of breakdown entries: it is display text built by
  `formatCurrency`.
- IEEE-754 rounding. Money is exact `real`, and `Infinity` is the `Unbounded`
  bound. The "within 5" snap still matters here: it absorbs the bisection's
  leftover error of less than 1 and reports the target exactly.
- The mutable `currentYear` global and its save/restore in the comparison.
  The regime is an explicit parameter, so the comparison makes three
  independent calls.
- The in-place update `result.net = net` of the snap. The result record is a
  value, so the snap is a record update; nothing else refers to the record.
- Solver.Bisect: before its first round it evaluates the record at `low`, so
  that `result` always holds a record. The source instead carries over the
  doubling loop's last record. The loop always runs at least once, so the
  returned record is the same.
- Solver.CalculateFromNet: the contract promises landing on the target only
  when the first guess or 1e10 pays more than it. Outside that case it only
  says the result is the snapped record of a gross at least the target. This
  is a limit of the proof, not of the source. The source can still land there
  when the guess at which the safety stop fires, somewhere above 1e10, pays
  more than the target. With no negative dependents the case never arises
  (`SearchConverges`), whatever the insurance base; only negative dependents,
  which make the deduction negative, can leave both the first guess and 1e10
  short of the target.
- Solver.CalculateFromNet, Solver.RoundTrip: targets and grosses must be
  below 2^100. When the first guess pays more than the target the bisection
  starts on [target, 2 × target], as wide as the target, so from 2^100 on the
  100 halvings no longer bring it under 1 and the source too may stop short
  of the target in exact arithmetic.
- Solver.RoundTrip: requires a positive net and no negative dependents. A
  non-positive net is not a valid search input. With negative dependents the
  deduction turns negative. The lower bound on the net that the proof uses
  (`NetFloor`) then no longer holds.
