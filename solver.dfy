/**
 * Net-to-gross conversion: find a gross salary whose take-home pay is the
 * requested net, by doubling an upper guess and then bisecting, and the
 * side-by-side comparison of the three regimes.
 */
module Solver {
  import opened Config
  import opened Salary

  /** Gross guesses above this stop the doubling search. */
  const SafetyLimit: real := 10000000000.0

  /** The number of bisection rounds. */
  const Rounds: nat := 100

  function Abs(x: real): (a: real)
    ensures a >= 0.0 && (a == x || a == -x)
  {
    if x < 0.0 then -x else x
  }

  /**
   * The final correction: a result whose take-home pay is within 5 of the
   * requested amount reports exactly that amount; nothing else changes.
   */
  function Snap(r: SalaryResult, target: real): (s: SalaryResult)
    ensures s.(net := r.net) == r
    ensures Abs(r.net - target) < 5.0 ==> s.net == target
    ensures Abs(r.net - target) >= 5.0 ==> s.net == r.net
    ensures Abs(s.net - r.net) < 5.0
  {
    if Abs(r.net - target) < 5.0 then r.(net := target) else r
  }

  /** Each doubling step moves the measure `(SafetyLimit - high) / target` down by at least one. */
  lemma DoublingProgress(high: real, target: real)
    requires target > 0.0 && high >= target && 2.0 * high <= SafetyLimit
    ensures (SafetyLimit - high) / target >= 0.0
    ensures (SafetyLimit - 2.0 * high) / target <= (SafetyLimit - high) / target - 1.0
  {
    var q := high / target;
    assert q * target == high;
    assert q >= 1.0;
  }

  /** The doubling phase's first guess for `target`: twice the target. */
  function FirstGuess(target: real): real {
    target * 2.0
  }

  /** 2^Rounds: the bisection rounds narrow any interval below this width to less than 1. */
  const RoundsReach: real := 1267650600228229401496703205376.0

  /** `w` halved `n` times. */
  ghost function Halve(w: real, n: nat): real {
    if n == 0 then w else Halve(w, n - 1) / 2.0
  }

  lemma {:induction false} HalveTenSteps(w: real, n: nat)
    ensures Halve(w, n + 10) == Halve(w, n) / 1024.0
  {
    if n == 0 {
      assert Halve(w, 1) == w / 2.0;
      assert Halve(w, 3) == w / 8.0;
      assert Halve(w, 5) == w / 32.0;
      assert Halve(w, 7) == w / 128.0;
      assert Halve(w, 9) == w / 512.0;
    } else {
      HalveTenSteps(w, n - 1);
    }
  }

  /** Halving `Rounds` times brings any width below 2^Rounds under 1. */
  lemma HalvedAway(w: real)
    requires w < RoundsReach
    ensures Halve(w, Rounds) < 1.0
  {
    HalveTenSteps(w, 90);
    HalveTenSteps(w, 80);
    HalveTenSteps(w, 70);
    HalveTenSteps(w, 60);
    HalveTenSteps(w, 50);
    HalveTenSteps(w, 40);
    HalveTenSteps(w, 30);
    HalveTenSteps(w, 20);
    HalveTenSteps(w, 10);
    HalveTenSteps(w, 0);
  }

  /**
   * When the search is sure to land on the requested take-home pay: a
   * positive target below 2^100 that either the first guess, twice the target,
   * or `SafetyLimit` pays more than. The doubling phase always ends on an
   * upper guess at least as large as the first that either pays more than
   * the target or lies beyond `SafetyLimit`, so in both cases it pays more.
   */
  ghost predicate Converges(regime: Regime, target: real, dependents: int, region: Region,
                            insuranceType: InsuranceType, insuranceSalaryInput: real)
  {
    && 0.0 < target
    && target < RoundsReach
    && (|| NetAt(regime, FirstGuess(target), dependents, region, insuranceType, insuranceSalaryInput) > target
        || NetAt(regime, SafetyLimit, dependents, region, insuranceType, insuranceSalaryInput) > target)
  }

  /**
   * What the search promises about its result: it is the gross-to-net record
   * of its own gross (after the final correction), that gross is at least
   * the requested net, and whenever the search converges it lands within 1
   * of the requested net and reports it exactly.
   */
  ghost predicate NetSolution(regime: Regime, target: real, dependents: int, region: Region,
                              insuranceType: InsuranceType, insuranceSalaryInput: real, result: SalaryResult)
  {
    && result == Snap(CalculateFromGross(regime, result.gross, dependents, region, insuranceType, insuranceSalaryInput), target)
    && result.gross >= target
    && (Converges(regime, target, dependents, region, insuranceType, insuranceSalaryInput) ==>
          && Abs(NetAt(regime, result.gross, dependents, region, insuranceType, insuranceSalaryInput) - target) < 1.0
          && result.net == target)
  }

  /** The bisection's outcome, once snapped, is what the search promises. */
  lemma SnappedSolution(regime: Regime, net: real, gross: real, r: SalaryResult, dependents: int, region: Region,
                        insuranceType: InsuranceType, insuranceSalaryInput: real)
    requires gross >= net
    requires r == CalculateFromGross(regime, gross, dependents, region, insuranceType, insuranceSalaryInput)
    requires Converges(regime, net, dependents, region, insuranceType, insuranceSalaryInput) ==> Abs(r.net - net) < 1.0
    ensures NetSolution(regime, net, dependents, region, insuranceType, insuranceSalaryInput, Snap(r, net))
  {
    assert Snap(r, net).gross == gross;
  }

  /**
   * The doubling phase of the search: starting from [net, 2 * net], move the
   * interval up by doubling until the take-home pay at `high` exceeds the
   * target, or `high` passes `SafetyLimit`. The lower end never pays more than
   * the target; the upper end does, unless the safety stop fired.
   */
  method ExpandBracket(regime: Regime, net: real, dependents: int, region: Region,
                       insuranceType: InsuranceType, insuranceSalaryInput: real) returns (low: real, high: real)
    requires net > 0.0
    ensures net <= low && high == 2.0 * low
    ensures low <= net * 2.0 || low <= SafetyLimit
    ensures low == net || FirstGuess(net) <= low
    ensures NetAt(regime, low, dependents, region, insuranceType, insuranceSalaryInput) <= net
    ensures NetAt(regime, high, dependents, region, insuranceType, insuranceSalaryInput) > net || high > SafetyLimit
  {
    NetAtMostGross(regime, net, dependents, region, insuranceType, insuranceSalaryInput);
    low := net;
    high := net * 2.0;
    while true
      invariant net <= low && high == 2.0 * low
      invariant NetAt(regime, low, dependents, region, insuranceType, insuranceSalaryInput) <= net
      invariant low == net || 2.0 * low <= SafetyLimit
      invariant low == net || FirstGuess(net) <= low
      decreases (SafetyLimit - high) / net
    {
      var result := CalculateFromGross(regime, high, dependents, region, insuranceType, insuranceSalaryInput);
      if result.net > net {
        break;
      }
      low := high;
      high := high * 2.0;
      if high > SafetyLimit {
        break;
      }
      DoublingProgress(low, net);
    }
  }

  /**
   * For values that grow no faster than their arguments on [low, high], and
   * straddle `target` at the two ends, the midpoint's value is within half
   * the interval of `target`.
   */
  lemma StraddleBound(atLow: real, atMid: real, atHigh: real, low: real, high: real, target: real)
    requires atLow <= target < atHigh
    requires 0.0 <= atMid - atLow <= (low + high) / 2.0 - low
    requires 0.0 <= atHigh - atMid <= high - (low + high) / 2.0
    ensures -(high - low) / 2.0 <= atMid - target <= (high - low) / 2.0
  {
  }

  /**
   * A bisection round that does not stop: when the interval straddles the
   * target and is at most `bound` wide, a midpoint whose take-home pay is 1
   * or more away from the target means the interval was at least 2 wide, so
   * half the bound is still at least 1, and the half kept fits within it.
   */
  lemma NarrowingStep(regime: Regime, net: real, low: real, mid: real, high: real, bound: real,
                      dependents: int, region: Region, insuranceType: InsuranceType, insuranceSalaryInput: real)
    requires low <= high && mid == (low + high) / 2.0 && high - low <= bound
    requires NetAt(regime, low, dependents, region, insuranceType, insuranceSalaryInput) <= net
    requires net < NetAt(regime, high, dependents, region, insuranceType, insuranceSalaryInput)
    requires Abs(NetAt(regime, mid, dependents, region, insuranceType, insuranceSalaryInput) - net) >= 1.0
    ensures 1.0 <= bound / 2.0
    ensures high - mid <= bound / 2.0 && mid - low <= bound / 2.0
  {
    NetMonotone(regime, low, mid, dependents, region, insuranceType, insuranceSalaryInput);
    NetMonotone(regime, mid, high, dependents, region, insuranceType, insuranceSalaryInput);
    StraddleBound(NetAt(regime, low, dependents, region, insuranceType, insuranceSalaryInput),
                  NetAt(regime, mid, dependents, region, insuranceType, insuranceSalaryInput),
                  NetAt(regime, high, dependents, region, insuranceType, insuranceSalaryInput),
                  low, high, net);
  }

  /**
   * The bisection phase: at most `Rounds` rounds, each probing the midpoint and
   * keeping the half whose ends straddle the target, stopping once the
   * take-home pay is within 1 of it. When the interval does straddle the
   * target and is narrower than 2^Rounds, the stop is reached: every round
   * that does not stop needs the halved interval to be at least 1 wide.
   */
  method Bisect(regime: Regime, net: real, low0: real, high0: real, dependents: int, region: Region,
                insuranceType: InsuranceType, insuranceSalaryInput: real) returns (gross: real, result: SalaryResult)
    requires net <= low0 <= high0
    requires NetAt(regime, low0, dependents, region, insuranceType, insuranceSalaryInput) <= net
    ensures low0 <= gross <= high0
    ensures result == CalculateFromGross(regime, gross, dependents, region, insuranceType, insuranceSalaryInput)
    ensures NetAt(regime, high0, dependents, region, insuranceType, insuranceSalaryInput) > net &&
            high0 - low0 < RoundsReach ==>
              Abs(result.net - net) < 1.0
  {
    ghost var straddles := NetAt(regime, high0, dependents, region, insuranceType, insuranceSalaryInput) > net;
    ghost var width0 := high0 - low0;
    var low, high := low0, high0;
    gross := low;
    result := CalculateFromGross(regime, gross, dependents, region, insuranceType, insuranceSalaryInput);
    if straddles && width0 < RoundsReach {
      HalvedAway(width0);
    }
    for i := 0 to Rounds
      invariant low0 <= low <= high <= high0
      invariant NetAt(regime, low, dependents, region, insuranceType, insuranceSalaryInput) <= net
      invariant straddles ==> NetAt(regime, high, dependents, region, insuranceType, insuranceSalaryInput) > net
      invariant straddles ==> high - low <= Halve(width0, i)
      invariant straddles && 0 < i ==> 1.0 <= Halve(width0, i)
      invariant low0 <= gross <= high0
      invariant result == CalculateFromGross(regime, gross, dependents, region, insuranceType, insuranceSalaryInput)
    {
      ghost var lowBefore, highBefore := low, high;
      gross := (low + high) / 2.0;
      result := CalculateFromGross(regime, gross, dependents, region, insuranceType, insuranceSalaryInput);
      assert result.net == NetAt(regime, gross, dependents, region, insuranceType, insuranceSalaryInput);
      if Abs(result.net - net) < 1.0 {
        break;
      }
      if result.net < net {
        low := gross;
      } else {
        high := gross;
      }
      if straddles {
        NarrowingStep(regime, net, lowBefore, gross, highBefore, Halve(width0, i),
                      dependents, region, insuranceType, insuranceSalaryInput);
      }
    }
  }

  /**
   * The upper end of the doubling phase is at least the first guess and
   * either pays more than the target or lies beyond `SafetyLimit`; so it pays
   * more than the target whenever the first guess or `SafetyLimit` does.
   */
  lemma UpperEndStraddles(regime: Regime, net: real, high: real, dependents: int, region: Region,
                          insuranceType: InsuranceType, insuranceSalaryInput: real)
    requires high >= FirstGuess(net)
    requires NetAt(regime, high, dependents, region, insuranceType, insuranceSalaryInput) > net || high > SafetyLimit
    requires || NetAt(regime, FirstGuess(net), dependents, region, insuranceType, insuranceSalaryInput) > net
             || NetAt(regime, SafetyLimit, dependents, region, insuranceType, insuranceSalaryInput) > net
    ensures NetAt(regime, high, dependents, region, insuranceType, insuranceSalaryInput) > net
  {
    var guess, limit := FirstGuess(net), SafetyLimit;
    if NetAt(regime, guess, dependents, region, insuranceType, insuranceSalaryInput) > net {
      NetMonotone(regime, guess, high, dependents, region, insuranceType, insuranceSalaryInput);
    } else if high > limit {
      NetMonotone(regime, limit, high, dependents, region, insuranceType, insuranceSalaryInput);
    }
  }

  /**
   * The search of the source: the doubling phase, the bisection phase, and
   * the final snap of the reported take-home pay.
   */
  method CalculateFromNet(regime: Regime, net: real, dependents: int, region: Region,
                          insuranceType: InsuranceType, insuranceSalaryInput: real) returns (result: SalaryResult)
    requires net > 0.0
    ensures NetSolution(regime, net, dependents, region, insuranceType, insuranceSalaryInput, result)
  {
    var low, high := ExpandBracket(regime, net, dependents, region, insuranceType, insuranceSalaryInput);
    var gross;
    gross, result := Bisect(regime, net, low, high, dependents, region, insuranceType, insuranceSalaryInput);
    if Converges(regime, net, dependents, region, insuranceType, insuranceSalaryInput) {
      UpperEndStraddles(regime, net, high, dependents, region, insuranceType, insuranceSalaryInput);
      var guess, limit := FirstGuess(net), SafetyLimit;
      if limit < low {
        NetMonotone(regime, limit, low, dependents, region, insuranceType, insuranceSalaryInput);
      }
      if guess <= low {
        NetMonotone(regime, guess, low, dependents, region, insuranceType, insuranceSalaryInput);
      }
    }
    SnappedSolution(regime, net, gross, result, dependents, region, insuranceType, insuranceSalaryInput);
    if Abs(result.net - net) < 5.0 {
      result := result.(net := net);
    }
  }

  /**
   * With the gross itself as insurance base and no negative dependents, the
   * first guess, twice the target, already pays more than the target, so the
   * doubling phase stops at once and the search converges for every positive
   * target below 2^100.
   */
  lemma FirstGuessStraddles(regime: Regime, target: real, dependents: int, region: Region)
    requires 0.0 < target && dependents >= 0
    ensures NetAt(regime, FirstGuess(target), dependents, region, Official, 0.0) > target
    ensures target < RoundsReach ==> Converges(regime, target, dependents, region, Official, 0.0)
  {
    var zero, guess := 0.0, FirstGuess(target);
    ZeroGross(regime, dependents, region);
    NetMonotone(regime, zero, guess, dependents, region, Official, 0.0);
  }

  /**
   * With no negative dependents the search converges for every positive
   * target below 2^100, whatever the insurance base: below 5.8e9 the
   * take-home pay at `SafetyLimit` already exceeds the target, and from there
   * on the first guess pays at least 1.1635 times the target less the
   * 5,508,000 insurance cap, which is more than the target.
   */
  lemma SearchConverges(regime: Regime, target: real, dependents: int, region: Region,
                        insuranceType: InsuranceType, insuranceSalaryInput: real)
    requires 0.0 < target < RoundsReach && dependents >= 0
    ensures Converges(regime, target, dependents, region, insuranceType, insuranceSalaryInput)
  {
    if target < 5800000000.0 {
      NetFloor(regime, SafetyLimit, dependents, region, insuranceType, insuranceSalaryInput);
    } else {
      NetFloor(regime, FirstGuess(target), dependents, region, insuranceType, insuranceSalaryInput);
    }
  }

  /**
   * Round trip: for any gross below 2^100 whose take-home pay is a positive
   * amount, searching for that take-home pay reports it exactly, at a gross
   * within 2 of the original (within 1 / 0.58175, since the take-home pay
   * grows at least that fast). Below `SafetyLimit` that limit pays more than
   * the target; above it the first guess does.
   */
  lemma RoundTrip(regime: Regime, gross: real, dependents: int, region: Region,
                  insuranceType: InsuranceType, insuranceSalaryInput: real, result: SalaryResult)
    requires 0.0 <= gross < RoundsReach && dependents >= 0
    requires NetAt(regime, gross, dependents, region, insuranceType, insuranceSalaryInput) > 0.0
    requires NetSolution(regime, NetAt(regime, gross, dependents, region, insuranceType, insuranceSalaryInput),
                         dependents, region, insuranceType, insuranceSalaryInput, result)
    ensures result.net == NetAt(regime, gross, dependents, region, insuranceType, insuranceSalaryInput)
    ensures Abs(result.gross - gross) < 2.0
  {
    var target := NetAt(regime, gross, dependents, region, insuranceType, insuranceSalaryInput);
    NetAtMostGross(regime, gross, dependents, region, insuranceType, insuranceSalaryInput);
    SearchConverges(regime, target, dependents, region, insuranceType, insuranceSalaryInput);
    var found := result.gross;
    if found >= gross {
      NetMonotone(regime, gross, found, dependents, region, insuranceType, insuranceSalaryInput);
    } else {
      NetMonotone(regime, found, gross, dependents, region, insuranceType, insuranceSalaryInput);
    }
  }

  /** Which way the calculator converts. */
  datatype Mode = GrossToNet | NetToGross

  /**
   * The comparison view: the same income and household under the 2025 regime
   * and the two 2026 periods, each computed independently in the chosen direction.
   */
  method CalculateComparison(mode: Mode, income: real, dependents: int, region: Region,
                             insuranceType: InsuranceType, insuranceSalaryInput: real)
    returns (result2025: SalaryResult, result2026h1: SalaryResult, result2026h2: SalaryResult)
    requires income != 0.0 && (mode == NetToGross ==> income > 0.0)
    ensures mode == GrossToNet ==>
              && result2025 == CalculateFromGross(Y2025, income, dependents, region, insuranceType, insuranceSalaryInput)
              && result2026h1 == CalculateFromGross(Y2026H1, income, dependents, region, insuranceType, insuranceSalaryInput)
              && result2026h2 == CalculateFromGross(Y2026H2, income, dependents, region, insuranceType, insuranceSalaryInput)
    ensures mode == NetToGross ==>
              && NetSolution(Y2025, income, dependents, region, insuranceType, insuranceSalaryInput, result2025)
              && NetSolution(Y2026H1, income, dependents, region, insuranceType, insuranceSalaryInput, result2026h1)
              && NetSolution(Y2026H2, income, dependents, region, insuranceType, insuranceSalaryInput, result2026h2)
  {
    if mode == GrossToNet {
      result2025 := CalculateFromGross(Y2025, income, dependents, region, insuranceType, insuranceSalaryInput);
      result2026h1 := CalculateFromGross(Y2026H1, income, dependents, region, insuranceType, insuranceSalaryInput);
      result2026h2 := CalculateFromGross(Y2026H2, income, dependents, region, insuranceType, insuranceSalaryInput);
    } else {
      result2025 := CalculateFromNet(Y2025, income, dependents, region, insuranceType, insuranceSalaryInput);
      result2026h1 := CalculateFromNet(Y2026H1, income, dependents, region, insuranceType, insuranceSalaryInput);
      result2026h2 := CalculateFromNet(Y2026H2, income, dependents, region, insuranceType, insuranceSalaryInput);
    }
  }
}
