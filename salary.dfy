/**
 * Gross-to-net conversion: mandatory insurance on a capped base, the taxable
 * income left after insurance and family deductions, the progressive tax on
 * it, and the take-home pay.
 */
module Salary {
  import opened Config
  import opened Tax

  /** How the insurance base is chosen: the gross salary itself, or a separately declared amount. */
  datatype InsuranceType = Official | Other

  /** Everything the gross-to-net conversion reports for one salary. */
  datatype SalaryResult = SalaryResult(
    gross: real,
    net: real,
    bhxh: real,            // social insurance
    bhyt: real,            // health insurance
    bhtn: real,            // unemployment insurance
    preTaxIncome: real,
    totalDeduction: real,
    taxableIncome: real,
    pit: real)

  function Max(a: real, b: real): real {
    if a >= b then a else b
  }

  /** The declared insurance salary is used only when that option is chosen and the amount is positive. */
  function InsuranceSalary(gross: real, insuranceType: InsuranceType, insuranceSalaryInput: real): (base: real)
    ensures base == gross || (insuranceType == Other && base == insuranceSalaryInput > 0.0)
    ensures insuranceType == Other && insuranceSalaryInput > 0.0 ==> base == insuranceSalaryInput
    ensures insuranceType == Official ==> base == gross
  {
    if insuranceType == Other && insuranceSalaryInput > 0.0 then insuranceSalaryInput else gross
  }

  /** Family deductions: the personal allowance plus one dependent allowance per dependent. */
  function TotalDeduction(regime: Regime, dependents: int): real {
    TaxConfig(regime).personalDeduction + dependents as real * TaxConfig(regime).dependentDeduction
  }

  /**
   * The gross-to-net conversion under a regime. The record it returns is
   * consistent: the contributions, the tax and the take-home pay add up to
   * the gross, the taxable income is the non-negative part of what remains
   * after insurance and deductions, and the tax is the progressive tax on it.
   */
  function CalculateFromGross(regime: Regime, gross: real, dependents: int, region: Region,
                              insuranceType: InsuranceType, insuranceSalaryInput: real): (r: SalaryResult)
    ensures r.gross == gross
    ensures r.preTaxIncome == gross - (r.bhxh + r.bhyt + r.bhtn)
    ensures r.totalDeduction == TotalDeduction(regime, dependents)
    ensures r.taxableIncome >= 0.0
    ensures r.taxableIncome >= r.preTaxIncome - r.totalDeduction
    ensures r.taxableIncome == 0.0 || r.taxableIncome == r.preTaxIncome - r.totalDeduction
    ensures r.pit == Pit(TaxConfig(regime).brackets, r.taxableIncome) && r.pit >= 0.0
    ensures r.net + r.bhxh + r.bhyt + r.bhtn + r.pit == gross
  {
    var insuranceSalary := InsuranceSalary(gross, insuranceType, insuranceSalaryInput);
    var cappedBhxhBhyt := Min(insuranceSalary, SocialHealthCap);
    var cappedBhtn := Min(insuranceSalary, UnemploymentCap(regime, region));
    var bhxh := SocialContribution(cappedBhxhBhyt);
    var bhyt := HealthContribution(cappedBhxhBhyt);
    var bhtn := UnemploymentContribution(cappedBhtn);
    var totalInsurance := bhxh + bhyt + bhtn;
    var preTaxIncome := gross - totalInsurance;
    var totalDeduction := TotalDeduction(regime, dependents);
    var taxableIncome := Max(0.0, preTaxIncome - totalDeduction);
    var pit := Pit(TaxConfig(regime).brackets, taxableIncome);
    PitNonNegative(regime, taxableIncome);
    var net := gross - totalInsurance - pit;
    SalaryResult(gross, net, bhxh, bhyt, bhtn, preTaxIncome, totalDeduction, taxableIncome, pit)
  }

  /** The take-home pay for a gross salary, all other inputs fixed. */
  function NetAt(regime: Regime, gross: real, dependents: int, region: Region,
                 insuranceType: InsuranceType, insuranceSalaryInput: real): real
  {
    CalculateFromGross(regime, gross, dependents, region, insuranceType, insuranceSalaryInput).net
  }

  /**
   * Each contribution is its rate times the insurance salary while that stays
   * under its cap, and exactly the rate times the cap above it: social and
   * health insurance are capped at 20 base salaries, unemployment insurance
   * at 20 regional minimum wages of the regime's year.
   */
  lemma InsuranceCaps(regime: Regime, gross: real, dependents: int, region: Region,
                      insuranceType: InsuranceType, insuranceSalaryInput: real)
    ensures var r := CalculateFromGross(regime, gross, dependents, region, insuranceType, insuranceSalaryInput);
            var base := InsuranceSalary(gross, insuranceType, insuranceSalaryInput);
            && (base <= 46800000.0 ==> r.bhxh == base * 0.08 && r.bhyt == base * 0.015)
            && (base >= 46800000.0 ==> r.bhxh == 3744000.0 && r.bhyt == 702000.0)
            && var bhtnCap := 20.0 * GetRegionMinWage(YearKey(regime))[region];
            && (base <= bhtnCap ==> r.bhtn == base * 0.01)
            && (base >= bhtnCap ==> r.bhtn == bhtnCap * 0.01)
  {
  }

  /** The unemployment cap by regime: the 2026 wage table for both 2026 periods. */
  lemma UnemploymentCapByRegime(regime: Regime, region: Region)
    ensures UnemploymentCap(regime, region) ==
              20.0 * (if regime == Y2025 then RegionMinWage2025 else RegionMinWage2026)[region]
  {
    MinWageByRegime(regime);
  }

  /** Each contribution is at least zero and at most the insurance base times its rate. */
  lemma InsuranceBounded(regime: Regime, gross: real, dependents: int, region: Region,
                         insuranceType: InsuranceType, insuranceSalaryInput: real)
    requires gross >= 0.0
    ensures var r := CalculateFromGross(regime, gross, dependents, region, insuranceType, insuranceSalaryInput);
            var base := InsuranceSalary(gross, insuranceType, insuranceSalaryInput);
            && 0.0 <= r.bhxh <= base * 0.08
            && 0.0 <= r.bhyt <= base * 0.015
            && 0.0 <= r.bhtn <= base * 0.01
  {
  }

  /** The take-home pay never exceeds a non-negative gross. */
  lemma NetAtMostGross(regime: Regime, gross: real, dependents: int, region: Region,
                       insuranceType: InsuranceType, insuranceSalaryInput: real)
    requires gross >= 0.0
    ensures NetAt(regime, gross, dependents, region, insuranceType, insuranceSalaryInput) <= gross
  {
    InsuranceBounded(regime, gross, dependents, region, insuranceType, insuranceSalaryInput);
  }

  /** The total insurance grows with the gross, and by at most 10.5% of the increase. */
  lemma InsuranceMonotone(regime: Regime, g1: real, g2: real, dependents: int, region: Region,
                          insuranceType: InsuranceType, insuranceSalaryInput: real)
    requires g1 <= g2
    ensures var r1 := CalculateFromGross(regime, g1, dependents, region, insuranceType, insuranceSalaryInput);
            var r2 := CalculateFromGross(regime, g2, dependents, region, insuranceType, insuranceSalaryInput);
            var i1 := r1.bhxh + r1.bhyt + r1.bhtn;
            var i2 := r2.bhxh + r2.bhyt + r2.bhtn;
            0.0 <= i2 - i1 <= (g2 - g1) * 0.105
  {
    var b1 := InsuranceSalary(g1, insuranceType, insuranceSalaryInput);
    var b2 := InsuranceSalary(g2, insuranceType, insuranceSalaryInput);
    assert 0.0 <= b2 - b1 <= g2 - g1;
    var cap := UnemploymentCap(regime, region);
    var s1, s2 := Min(b1, SocialHealthCap), Min(b2, SocialHealthCap);
    var u1, u2 := Min(b1, cap), Min(b2, cap);
    assert 0.0 <= s2 - s1 <= b2 - b1;
    assert 0.0 <= u2 - u1 <= b2 - b1;
  }

  /**
   * Take-home pay grows with the gross: by no more than the gross does, and
   * by at least 58.175% of it (what is left after at most 10.5% insurance and
   * then at most 35% tax). This is what lets the net-to-gross search bisect,
   * and what makes its answer unique.
   */
  lemma NetMonotone(regime: Regime, g1: real, g2: real, dependents: int, region: Region,
                    insuranceType: InsuranceType, insuranceSalaryInput: real)
    requires g1 <= g2
    ensures var n1 := NetAt(regime, g1, dependents, region, insuranceType, insuranceSalaryInput);
            var n2 := NetAt(regime, g2, dependents, region, insuranceType, insuranceSalaryInput);
            (g2 - g1) * 0.58175 <= n2 - n1 <= g2 - g1
  {
    var r1 := CalculateFromGross(regime, g1, dependents, region, insuranceType, insuranceSalaryInput);
    var r2 := CalculateFromGross(regime, g2, dependents, region, insuranceType, insuranceSalaryInput);
    InsuranceMonotone(regime, g1, g2, dependents, region, insuranceType, insuranceSalaryInput);
    var t1, t2 := r1.taxableIncome, r2.taxableIncome;
    assert 0.0 <= r2.preTaxIncome - r1.preTaxIncome <= g2 - g1;
    assert 0.0 <= t2 - t1 <= r2.preTaxIncome - r1.preTaxIncome;
    PitMonotone(regime, t1, t2);
  }

  /**
   * Whatever the base, the caps bound the total insurance: 3,744,000 social,
   * 702,000 health, and at most 1,062,000 unemployment (1% of 20 times the
   * highest regional minimum wage).
   */
  lemma InsuranceTotalCapped(regime: Regime, gross: real, dependents: int, region: Region,
                             insuranceType: InsuranceType, insuranceSalaryInput: real)
    ensures var r := CalculateFromGross(regime, gross, dependents, region, insuranceType, insuranceSalaryInput);
            r.bhxh + r.bhyt + r.bhtn <= 5508000.0
  {
    MinWageByRegime(regime);
    assert UnemploymentCap(regime, region) <= 106200000.0;
  }

  /**
   * With no negative dependents, take-home pay is at least 58.175% of a
   * non-negative gross, less the most the capped insurance can take.
   */
  lemma NetFloor(regime: Regime, gross: real, dependents: int, region: Region,
                 insuranceType: InsuranceType, insuranceSalaryInput: real)
    requires gross >= 0.0 && dependents >= 0
    ensures NetAt(regime, gross, dependents, region, insuranceType, insuranceSalaryInput) >= gross * 0.58175 - 5508000.0
  {
    var zero := 0.0;
    var r0 := CalculateFromGross(regime, zero, dependents, region, insuranceType, insuranceSalaryInput);
    InsuranceBounded(regime, zero, dependents, region, insuranceType, insuranceSalaryInput);
    InsuranceTotalCapped(regime, zero, dependents, region, insuranceType, insuranceSalaryInput);
    assert r0.taxableIncome == 0.0;
    NetMonotone(regime, zero, gross, dependents, region, insuranceType, insuranceSalaryInput);
  }

  /** No income, no contributions, no tax. */
  lemma ZeroGross(regime: Regime, dependents: int, region: Region)
    requires dependents >= 0
    ensures var r := CalculateFromGross(regime, 0.0, dependents, region, Official, 0.0);
            r.net == 0.0 && r.pit == 0.0 && r.taxableIncome == 0.0
  {
  }

  /**
   * A worked case under the 2025 regime: 20,000,000 gross in region 1 with no
   * dependents pays 2,100,000 in insurance and 440,000 in tax.
   */
  lemma Example2025()
    ensures var r := CalculateFromGross(Y2025, 20000000.0, 0, 1, Official, 0.0);
            && r.bhxh == 1600000.0 && r.bhyt == 300000.0 && r.bhtn == 200000.0
            && r.taxableIncome == 6900000.0
            && r.pit == 440000.0
            && r.net == 17460000.0
  {
    var r := CalculateFromGross(Y2025, 20000000.0, 0, 1, Official, 0.0);
    MinWageByRegime(Y2025);
    assert r.taxableIncome == 6900000.0;
    assert FirstFit(SevenBrackets, 0, 6900000.0) == 1 by {
      assert FirstFit(SevenBrackets, 1, 6900000.0) == 1;
    }
  }

  /**
   * The two 2026 periods differ only in the tax table: insurance, deductions
   * and the taxable income are the same.
   */
  lemma Periods2026ShareBase(gross: real, dependents: int, region: Region,
                             insuranceType: InsuranceType, insuranceSalaryInput: real)
    ensures var h1 := CalculateFromGross(Y2026H1, gross, dependents, region, insuranceType, insuranceSalaryInput);
            var h2 := CalculateFromGross(Y2026H2, gross, dependents, region, insuranceType, insuranceSalaryInput);
            && h1.bhxh == h2.bhxh && h1.bhyt == h2.bhyt && h1.bhtn == h2.bhtn
            && h1.totalDeduction == h2.totalDeduction
            && h1.taxableIncome == h2.taxableIncome
  {
    MinWageByRegime(Y2026H1);
    MinWageByRegime(Y2026H2);
  }

  /**
   * The first 2026 period keeps the 2025 table but raises the deductions and
   * the unemployment cap, so for the same salary its tax is never higher.
   */
  lemma TaxNotHigherIn2026H1(gross: real, dependents: int, region: Region,
                             insuranceType: InsuranceType, insuranceSalaryInput: real)
    requires dependents >= 0
    ensures var old2025 := CalculateFromGross(Y2025, gross, dependents, region, insuranceType, insuranceSalaryInput);
            var h1 := CalculateFromGross(Y2026H1, gross, dependents, region, insuranceType, insuranceSalaryInput);
            && h1.taxableIncome <= old2025.taxableIncome
            && h1.pit <= old2025.pit
  {
    var a := CalculateFromGross(Y2025, gross, dependents, region, insuranceType, insuranceSalaryInput);
    var b := CalculateFromGross(Y2026H1, gross, dependents, region, insuranceType, insuranceSalaryInput);
    MinWageByRegime(Y2025);
    MinWageByRegime(Y2026H1);
    var base := InsuranceSalary(gross, insuranceType, insuranceSalaryInput);
    assert Min(base, UnemploymentCap(Y2025, region)) <= Min(base, UnemploymentCap(Y2026H1, region));
    assert a.bhtn <= b.bhtn;
    assert a.totalDeduction <= b.totalDeduction;
    PitMonotone(Y2025, b.taxableIncome, a.taxableIncome);
  }
}
