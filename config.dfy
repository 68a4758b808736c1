/**
 * Regime configuration of the salary calculator: personal and dependent
 * deductions, progressive bracket tables, regional minimum wages and the
 * mandatory insurance rates and caps.
 *
 * The source selects the active table through a mutable global year key;
 * here the regime is an explicit value passed to every operation.
 */
module Config {

  /** The three tax-year regimes the calculator knows. */
  datatype Regime = Y2025 | Y2026H1 | Y2026H2

  /** The key under which a regime is stored in the source's configuration object. */
  function YearKey(regime: Regime): string {
    match regime
    case Y2025 => "2025"
    case Y2026H1 => "2026-h1"
    case Y2026H2 => "2026-h2"
  }

  /** Upper bound of a bracket; the last bracket of every table is unbounded. */
  datatype Bound = Finite(value: real) | Unbounded

  /** `x <= bound`, reading Unbounded as +infinity. */
  predicate Within(x: real, bound: Bound) {
    bound.Unbounded? || x <= bound.value
  }

  /** One row of a bracket table: income up to `max` is taxed as `income * rate - subtract`. */
  datatype Bracket = Bracket(max: Bound, rate: real, subtract: real)

  /** The tax a bracket's formula assigns to income `x`. */
  function Formula(bracket: Bracket, x: real): real {
    x * bracket.rate - bracket.subtract
  }

  datatype TaxTable = TaxTable(personalDeduction: real, dependentDeduction: real, brackets: seq<Bracket>)

  /** The seven-bracket table shared by the 2025 and first-half-2026 regimes. */
  const SevenBrackets: seq<Bracket> := [
    Bracket(Finite(5000000.0), 0.05, 0.0),
    Bracket(Finite(10000000.0), 0.10, 250000.0),
    Bracket(Finite(18000000.0), 0.15, 750000.0),
    Bracket(Finite(32000000.0), 0.20, 1650000.0),
    Bracket(Finite(52000000.0), 0.25, 3250000.0),
    Bracket(Finite(80000000.0), 0.30, 5850000.0),
    Bracket(Unbounded, 0.35, 9850000.0)
  ]

  /** The five-bracket table of the second-half-2026 regime. */
  const FiveBrackets: seq<Bracket> := [
    Bracket(Finite(10000000.0), 0.05, 0.0),
    Bracket(Finite(30000000.0), 0.10, 500000.0),
    Bracket(Finite(60000000.0), 0.20, 3500000.0),
    Bracket(Finite(100000000.0), 0.30, 9500000.0),
    Bracket(Unbounded, 0.35, 14500000.0)
  ]

  function TaxConfig(regime: Regime): (table: TaxTable)
    ensures |table.brackets| == if regime == Y2026H2 then 5 else 7
    ensures table.personalDeduction > 0.0 && table.dependentDeduction > 0.0
  {
    match regime
    case Y2025 => TaxTable(11000000.0, 4400000.0, SevenBrackets)
    case Y2026H1 => TaxTable(15500000.0, 6200000.0, SevenBrackets)
    case Y2026H2 => TaxTable(15500000.0, 6200000.0, FiveBrackets)
  }

  /** Lower end of bracket `i`: 0 for the first, the previous bracket's bound otherwise. */
  function PrevMax(brackets: seq<Bracket>, i: nat): real
    requires i < |brackets|
  {
    if i == 0 || brackets[i - 1].max.Unbounded? then 0.0 else brackets[i - 1].max.value
  }

  /**
   * What a bracket table must satisfy for `income * rate - subtract` to be the
   * progressive tax: only the last bound is unbounded, bounds strictly increase
   * from a positive first bound, rates lie between 0 and the top marginal rate
   * of 35%, and each `subtract` is the previous one plus the previous bound
   * times the rate increase, so that adjacent formulas agree at every boundary.
   */
  ghost predicate WellFormed(brackets: seq<Bracket>) {
    && |brackets| > 0
    && brackets[|brackets| - 1].max.Unbounded?
    && brackets[0].subtract == 0.0
    && (forall i :: 0 <= i < |brackets| ==> 0.0 <= brackets[i].rate <= 0.35)
    && (forall i :: 0 <= i < |brackets| - 1 ==> BoundaryAgrees(brackets, i))
  }

  /**
   * Bracket `i` has a finite bound above its lower end, and the formulas of
   * bracket `i` and bracket `i + 1` give the same tax at that bound (which is
   * what choosing the next subtract constant as this one plus the bound times
   * the rate increase achieves).
   */
  ghost predicate BoundaryAgrees(brackets: seq<Bracket>, i: nat)
    requires i + 1 < |brackets|
  {
    var below, above := brackets[i], brackets[i + 1];
    && below.max.Finite?
    && PrevMax(brackets, i) < below.max.value
    && Formula(above, below.max.value) == Formula(below, below.max.value)
  }

  lemma SevenBracketsWellFormed()
    ensures WellFormed(SevenBrackets)
  {
  }

  lemma FiveBracketsWellFormed()
    ensures WellFormed(FiveBrackets)
  {
  }

  /** Every regime's table satisfies the progressive-tax invariant. */
  lemma TablesWellFormed(regime: Regime)
    ensures WellFormed(TaxConfig(regime).brackets)
  {
    SevenBracketsWellFormed();
    FiveBracketsWellFormed();
  }

  /** A wage region, 1 to 4. */
  type Region = r: int | 1 <= r <= 4 witness 1

  const RegionMinWage2025: map<int, real> :=
    map[1 := 4960000.0, 2 := 4410000.0, 3 := 3860000.0, 4 := 3250000.0]

  const RegionMinWage2026: map<int, real> :=
    map[1 := 5310000.0, 2 := 4730000.0, 3 := 4140000.0, 4 := 3700000.0]

  /** The minimum-wage table of a year key: the 2026 table for every key that starts with "2026". */
  function GetRegionMinWage(key: string): (table: map<int, real>)
    ensures table.Keys == {1, 2, 3, 4}
    ensures forall r :: r in table ==> table[r] > 0.0
    ensures table == if "2026" <= key then RegionMinWage2026 else RegionMinWage2025
  {
    if "2026" <= key then RegionMinWage2026 else RegionMinWage2025
  }

  /** Both 2026 periods use the 2026 wage table; 2025 uses its own. */
  lemma MinWageByRegime(regime: Regime)
    ensures GetRegionMinWage(YearKey(regime)) == if regime == Y2025 then RegionMinWage2025 else RegionMinWage2026
  {
    var key := YearKey(regime);
    if regime == Y2025 {
      assert key[3] == '5';
      assert !("2026" <= key);
    } else {
      assert key[..4] == "2026";
    }
  }

  function RegionMinWage(regime: Regime, region: Region): (wage: real)
    ensures wage > 0.0
  {
    GetRegionMinWage(YearKey(regime))[region]
  }

  const BaseSalary: real := 2340000.0

  /** Social insurance: 8% of its capped base. */
  function SocialContribution(cappedBase: real): real {
    cappedBase * 0.08
  }

  /** Health insurance: 1.5% of its capped base. */
  function HealthContribution(cappedBase: real): real {
    cappedBase * 0.015
  }

  /** Unemployment insurance: 1% of its capped base. */
  function UnemploymentContribution(cappedBase: real): real {
    cappedBase * 0.01
  }

  /** Social and health insurance are computed on at most 20 base salaries. */
  const SocialHealthCap: real := 20.0 * BaseSalary

  /** Unemployment insurance is computed on at most 20 regional minimum wages. */
  function UnemploymentCap(regime: Regime, region: Region): (cap: real)
    ensures cap > 0.0
  {
    20.0 * RegionMinWage(regime, region)
  }
}
