/**
 * Progressive personal income tax: the total by the "rate minus subtract
 * constant" formula of the first bracket holding the income, and the
 * per-bracket breakdown of the same income into marginal slices.
 *
 * Every product in the proofs below is a product of variables or field
 * values (never of a compound expression), which keeps the arithmetic the
 * verifier has to do linear in those products.
 */
module Tax {
  import opened Config

  /**
   * Index of the first bracket at or after `i` whose bound is at least `x`;
   * `|brackets|` when there is none.
   */
  function FirstFit(brackets: seq<Bracket>, i: nat, x: real): (k: nat)
    requires i <= |brackets|
    ensures i <= k <= |brackets|
    ensures k < |brackets| ==> Within(x, brackets[k].max)
    ensures forall j :: i <= j < k ==> !Within(x, brackets[j].max)
    decreases |brackets| - i
  {
    if i == |brackets| then i
    else if Within(x, brackets[i].max) then i
    else FirstFit(brackets, i + 1, x)
  }

  /** The formula of the first bracket at or after `i` holding `x`; 0 when none does. */
  function TaxFrom(brackets: seq<Bracket>, i: nat, x: real): real
    requires i <= |brackets|
  {
    var k := FirstFit(brackets, i, x);
    if k < |brackets| then Formula(brackets[k], x) else 0.0
  }

  /** The tax on a taxable income: nothing on a non-positive income, else the first fitting bracket's formula. */
  function Pit(brackets: seq<Bracket>, taxableIncome: real): real {
    if taxableIncome <= 0.0 then 0.0 else TaxFrom(brackets, 0, taxableIncome)
  }

  /** The loop of the source: scan the active table and stop at the first bracket holding the income. */
  method CalculatePit(regime: Regime, taxableIncome: real) returns (totalTax: real)
    ensures totalTax == Pit(TaxConfig(regime).brackets, taxableIncome)
  {
    if taxableIncome <= 0.0 {
      return 0.0;
    }
    totalTax := 0.0;
    var brackets := TaxConfig(regime).brackets;
    for i := 0 to |brackets|
      invariant FirstFit(brackets, i, taxableIncome) == FirstFit(brackets, 0, taxableIncome)
      invariant totalTax == 0.0
    {
      if Within(taxableIncome, brackets[i].max) {
        totalTax := taxableIncome * brackets[i].rate - brackets[i].subtract;
        FitStops(brackets, i, taxableIncome);
        break;
      }
    }
  }

  /** The scan stops at the first bracket holding a positive income, whose formula is then the tax. */
  lemma FitStops(brackets: seq<Bracket>, i: nat, x: real)
    requires i < |brackets| && x > 0.0 && Within(x, brackets[i].max)
    requires FirstFit(brackets, i, x) == FirstFit(brackets, 0, x)
    ensures x * brackets[i].rate - brackets[i].subtract == Pit(brackets, x)
  {
  }

  /** For a positive income some bracket always holds it, because the last bound is unbounded. */
  lemma PitUsesFirstFittingBracket(regime: Regime, taxableIncome: real)
    requires taxableIncome > 0.0
    ensures var brackets := TaxConfig(regime).brackets;
            var k := FirstFit(brackets, 0, taxableIncome);
            && k < |brackets|
            && (forall j :: 0 <= j < k ==> !Within(taxableIncome, brackets[j].max))
            && Within(taxableIncome, brackets[k].max)
            && Pit(brackets, taxableIncome) == taxableIncome * brackets[k].rate - brackets[k].subtract
  {
    TablesWellFormed(regime);
    LastBracketFits(TaxConfig(regime).brackets, taxableIncome);
  }

  lemma LastBracketFits(brackets: seq<Bracket>, x: real)
    requires WellFormed(brackets) && x > 0.0
    ensures var k := FirstFit(brackets, 0, x);
            && k < |brackets|
            && (forall j :: 0 <= j < k ==> !Within(x, brackets[j].max))
            && Within(x, brackets[k].max)
            && Pit(brackets, x) == Formula(brackets[k], x)
  {
    assert Within(x, brackets[|brackets| - 1].max);
  }

  /** A bracket holding `x` from its lower end up: the walk from it stops right there. */
  lemma FitsOwnBracket(brackets: seq<Bracket>, i: nat, x: real)
    requires i < |brackets| && Within(x, brackets[i].max)
    ensures TaxFrom(brackets, i, x) == Formula(brackets[i], x)
  {
  }

  /** Every bound below the last is finite, so the bracket after a non-fitting one exists. */
  lemma NextBracket(brackets: seq<Bracket>, i: nat, x: real)
    requires WellFormed(brackets) && i < |brackets|
    requires !Within(x, brackets[i].max)
    ensures i + 1 < |brackets| && brackets[i].max.Finite?
    ensures PrevMax(brackets, i + 1) == brackets[i].max.value < x
    ensures Within(brackets[i].max.value, brackets[i + 1].max)
    ensures Formula(brackets[i + 1], brackets[i].max.value) == Formula(brackets[i], brackets[i].max.value)
    ensures TaxFrom(brackets, i, x) == TaxFrom(brackets, i + 1, x)
  {
    assert i != |brackets| - 1;
    assert BoundaryAgrees(brackets, i);
    if i + 2 < |brackets| {
      assert BoundaryAgrees(brackets, i + 1);
    }
  }

  lemma MulNonNegative(a: real, b: real)
    requires a >= 0.0 && b >= 0.0
    ensures a * b >= 0.0
  {
  }

  /** Scaling by a rate of at most 35% keeps the order of two amounts and shrinks their gap to at most 35%. */
  lemma ScaleMonotone(x: real, y: real, rate: real)
    requires x <= y && 0.0 <= rate <= 0.35
    ensures 0.0 <= y * rate - x * rate <= (y - x) * 0.35
  {
    MulNonNegative(y - x, rate);
    MulNonNegative(y - x, 0.35 - rate);
  }

  /** Within one bracket the formula tax grows with the income, and by at most 35% of the income added. */
  lemma FormulaStep(bracket: Bracket, x: real, y: real)
    requires x <= y && 0.0 <= bracket.rate <= 0.35
    ensures 0.0 <= Formula(bracket, y) - Formula(bracket, x) <= (y - x) * 0.35
  {
    ScaleMonotone(x, y, bracket.rate);
  }

  /** From bracket `i` on, the formula tax never decreases and grows by at most 35% of the income added. */
  lemma {:induction false} TaxFromLipschitz(brackets: seq<Bracket>, i: nat, t1: real, t2: real)
    requires WellFormed(brackets) && i < |brackets|
    requires PrevMax(brackets, i) <= t1 <= t2
    ensures 0.0 <= TaxFrom(brackets, i, t2) - TaxFrom(brackets, i, t1) <= (t2 - t1) * 0.35
    decreases |brackets| - i
  {
    var b := brackets[i];
    if Within(t2, b.max) {
      FitsOwnBracket(brackets, i, t1);
      FitsOwnBracket(brackets, i, t2);
      FormulaStep(b, t1, t2);
    } else {
      NextBracket(brackets, i, t2);
      var m := b.max.value;
      if t1 > m {
        NextBracket(brackets, i, t1);
        TaxFromLipschitz(brackets, i + 1, t1, t2);
      } else {
        TaxFromLipschitz(brackets, i + 1, m, t2);
        FitsOwnBracket(brackets, i + 1, m);
        FitsOwnBracket(brackets, i, t1);
        FormulaStep(b, t1, m);
      }
    }
  }

  /**
   * The tax is monotone in the taxable income and grows by at most the top
   * marginal rate, 35%, of any increase: it never drops as income grows and
   * a raise always leaves at least 65% of it after tax.
   */
  lemma PitMonotone(regime: Regime, t1: real, t2: real)
    requires 0.0 <= t1 <= t2
    ensures var brackets := TaxConfig(regime).brackets;
            0.0 <= Pit(brackets, t2) - Pit(brackets, t1) <= (t2 - t1) * 0.35
  {
    TablesWellFormed(regime);
    PitLipschitz(TaxConfig(regime).brackets, t1, t2);
  }

  lemma PitLipschitz(brackets: seq<Bracket>, t1: real, t2: real)
    requires WellFormed(brackets) && 0.0 <= t1 <= t2
    ensures 0.0 <= Pit(brackets, t2) - Pit(brackets, t1) <= (t2 - t1) * 0.35
  {
    if |brackets| > 1 {
      assert BoundaryAgrees(brackets, 0);
    }
    FitsOwnBracket(brackets, 0, 0.0);
    assert Pit(brackets, t1) == TaxFrom(brackets, 0, t1);
    assert Pit(brackets, t2) == TaxFrom(brackets, 0, t2);
    TaxFromLipschitz(brackets, 0, t1, t2);
  }

  lemma PitNonNegative(regime: Regime, taxableIncome: real)
    ensures Pit(TaxConfig(regime).brackets, taxableIncome) >= 0.0
  {
    if taxableIncome > 0.0 {
      PitMonotone(regime, 0.0, taxableIncome);
    }
  }

  /** At a finite bound the formulas of the bracket below and the bracket above give the same tax. */
  lemma PitContinuousAtBoundary(regime: Regime, i: nat)
    requires i + 1 < |TaxConfig(regime).brackets|
    ensures var brackets := TaxConfig(regime).brackets;
            && brackets[i].max.Finite?
            && var m := brackets[i].max.value;
            && Pit(brackets, m) == m * brackets[i].rate - brackets[i].subtract
            && Pit(brackets, m) == m * brackets[i + 1].rate - brackets[i + 1].subtract
  {
    TablesWellFormed(regime);
    BoundTaxedByBothFormulas(TaxConfig(regime).brackets, i);
  }

  lemma BoundTaxedByBothFormulas(brackets: seq<Bracket>, i: nat)
    requires WellFormed(brackets) && i + 1 < |brackets|
    ensures brackets[i].max.Finite?
    ensures var m := brackets[i].max.value;
            && Pit(brackets, m) == Formula(brackets[i], m)
            && Pit(brackets, m) == Formula(brackets[i + 1], m)
  {
    assert BoundaryAgrees(brackets, i);
    var m := brackets[i].max.value;
    assert 0.0 <= PrevMax(brackets, i) < m by {
      PrevMaxMonotone(brackets, 0, i);
    }
    forall j | 0 <= j < i
      ensures !Within(m, brackets[j].max)
    {
      PrevMaxMonotone(brackets, j + 1, i);
      assert BoundaryAgrees(brackets, j);
    }
    assert FirstFit(brackets, 0, m) == i;
  }

  lemma {:induction false} PrevMaxMonotone(brackets: seq<Bracket>, j: nat, i: nat)
    requires WellFormed(brackets) && j <= i < |brackets|
    ensures PrevMax(brackets, j) <= PrevMax(brackets, i)
    decreases i - j
  {
    if j < i {
      assert BoundaryAgrees(brackets, j);
      PrevMaxMonotone(brackets, j + 1, i);
    }
  }

  /** One line of the breakdown: the slice of income taxed at bracket `level`'s marginal rate. */
  datatype Entry = Entry(level: nat, ratePercent: real, income: real, tax: real)

  function Min(a: real, b: real): real {
    if a <= b then a else b
  }

  /** The entry bracket `i` contributes when the bracket starts at `prev`: none if no income lies above `prev`. */
  function SliceAt(bracket: Bracket, i: nat, prev: real, x: real): seq<Entry> {
    if x > prev then
      var maxInThisBracket := (if bracket.max.Unbounded? then x else bracket.max.value) - prev;
      var actualInThisBracket := Min(x - prev, maxInThisBracket);
      if actualInThisBracket > 0.0 then
        [Entry(i + 1, bracket.rate * 100.0, actualInThisBracket, actualInThisBracket * bracket.rate)]
      else []
    else []
  }

  /** When some income lies in the bracket, its entry holds exactly that slice. */
  lemma SliceOf(bracket: Bracket, i: nat, prev: real, x: real, amount: real)
    requires x > prev && amount > 0.0
    requires amount == Min(x - prev, (if bracket.max.Unbounded? then x else bracket.max.value) - prev)
    ensures var slice := SliceAt(bracket, i, prev, x);
            && |slice| == 1
            && slice == [Entry(i + 1, bracket.rate * 100.0, amount, amount * bracket.rate)]
  {
    var slice := SliceAt(bracket, i, prev, x);
    assert slice[0].income == amount;
    assert slice[0].tax == slice[0].income * bracket.rate;
    assert slice[0] == Entry(i + 1, bracket.rate * 100.0, amount, amount * bracket.rate);
  }

  /** The breakdown from bracket `i` on, whose lower end is `prev`; it stops at the first bracket holding `x`. */
  function BreakdownFrom(brackets: seq<Bracket>, i: nat, prev: real, x: real): seq<Entry>
    requires i <= |brackets|
    decreases |brackets| - i
  {
    if i == |brackets| then []
    else
      var here := SliceAt(brackets[i], i, prev, x);
      if Within(x, brackets[i].max) then here
      else here + BreakdownFrom(brackets, i + 1, brackets[i].max.value, x)
  }

  function Breakdown(brackets: seq<Bracket>, taxableIncome: real): seq<Entry> {
    if taxableIncome <= 0.0 then [] else BreakdownFrom(brackets, 0, 0.0, taxableIncome)
  }

  /** The loop of the source: walk the table, append each non-empty slice, stop once the income is covered. */
  method GetTaxBreakdown(regime: Regime, taxableIncome: real) returns (breakdown: seq<Entry>)
    ensures breakdown == Breakdown(TaxConfig(regime).brackets, taxableIncome)
  {
    if taxableIncome <= 0.0 {
      return [];
    }
    breakdown := [];
    var previousMax := 0.0;
    var brackets := TaxConfig(regime).brackets;
    for i := 0 to |brackets|
      invariant breakdown + BreakdownFrom(brackets, i, previousMax, taxableIncome)
                == Breakdown(brackets, taxableIncome)
    {
      var bracket := brackets[i];
      ghost var before := breakdown;
      ghost var here := SliceAt(bracket, i, previousMax, taxableIncome);
      if taxableIncome > previousMax {
        var maxInThisBracket := (if bracket.max.Unbounded? then taxableIncome else bracket.max.value) - previousMax;
        var actualInThisBracket := Min(taxableIncome - previousMax, maxInThisBracket);
        if actualInThisBracket > 0.0 {
          var tax := actualInThisBracket * bracket.rate;
          breakdown := breakdown + [Entry(i + 1, bracket.rate * 100.0, actualInThisBracket, tax)];
          SliceOf(bracket, i, previousMax, taxableIncome, actualInThisBracket);
        } else {
          assert here == [];
        }
      } else {
        assert here == [];
      }
      assert breakdown == before + here;
      BreakdownStep(brackets, i, previousMax, taxableIncome);
      // an unbounded bracket sets the previous bound to infinity, which every income is below
      if bracket.max.Unbounded? {
        break;
      }
      previousMax := bracket.max.value;
      if taxableIncome <= previousMax {
        break;
      }
      ghost var rest := BreakdownFrom(brackets, i + 1, previousMax, taxableIncome);
      ConcatAssociative(before, here, rest);
    }
  }

  lemma ConcatAssociative(a: seq<Entry>, b: seq<Entry>, c: seq<Entry>)
    ensures a + (b + c) == (a + b) + c
  {
  }

  /** One step of the walk: the slice of bracket `i`, then the rest unless `x` fits in bracket `i`. */
  lemma BreakdownStep(brackets: seq<Bracket>, i: nat, prev: real, x: real)
    requires i < |brackets|
    ensures Within(x, brackets[i].max) ==>
              BreakdownFrom(brackets, i, prev, x) == SliceAt(brackets[i], i, prev, x)
    ensures !Within(x, brackets[i].max) ==>
              BreakdownFrom(brackets, i, prev, x)
              == SliceAt(brackets[i], i, prev, x) + BreakdownFrom(brackets, i + 1, brackets[i].max.value, x)
  {
  }

  function TaxSum(entries: seq<Entry>): real {
    if entries == [] then 0.0 else entries[0].tax + TaxSum(entries[1..])
  }

  function IncomeSum(entries: seq<Entry>): real {
    if entries == [] then 0.0 else entries[0].income + IncomeSum(entries[1..])
  }

  /**
   * An entry is a genuine slice of its bracket: a positive income no larger
   * than the bracket's width, taxed at the bracket's rate.
   */
  ghost predicate EntryFits(brackets: seq<Bracket>, e: Entry) {
    && 1 <= e.level <= |brackets|
    && var b := brackets[e.level - 1];
    && 0.0 < e.income
    && (b.max.Finite? ==> e.income <= b.max.value - PrevMax(brackets, e.level - 1))
    && e.ratePercent == b.rate * 100.0
    && e.tax == e.income * b.rate
  }

  ghost predicate LevelsIncreasing(entries: seq<Entry>) {
    forall j, k :: 0 <= j < k < |entries| ==> entries[j].level < entries[k].level
  }

  /** The sums over a breakdown that starts with one entry. */
  lemma SumsOfCons(e: Entry, rest: seq<Entry>)
    ensures TaxSum([e] + rest) == e.tax + TaxSum(rest)
    ensures IncomeSum([e] + rest) == e.income + IncomeSum(rest)
  {
    assert ([e] + rest)[0] == e;
    assert ([e] + rest)[1..] == rest;
  }

  /** The tax on a slice from `lo` to `hi` is the difference of the products at its ends. */
  lemma SliceTax(width: real, lo: real, hi: real, rate: real)
    requires width == hi - lo
    ensures width * rate == hi * rate - lo * rate
  {
  }

  /**
   * The sums claimed by BreakdownFromSums for the breakdown from bracket `i`,
   * whose lower end is PrevMax(brackets, i).
   */
  ghost predicate SumsFrom(brackets: seq<Bracket>, i: nat, x: real)
    requires i < |brackets|
  {
    var prev := PrevMax(brackets, i);
    var entries := BreakdownFrom(brackets, i, prev, x);
    && IncomeSum(entries) == x - prev
    && TaxSum(entries) == TaxFrom(brackets, i, x) - Formula(brackets[i], prev)
  }

  /** The last bracket of the walk: its single slice carries all the income above its lower end. */
  lemma SumsInOwnBracket(brackets: seq<Bracket>, i: nat, x: real)
    requires WellFormed(brackets) && i < |brackets| && x > PrevMax(brackets, i)
    requires Within(x, brackets[i].max)
    ensures SumsFrom(brackets, i, x)
  {
    var prev := PrevMax(brackets, i);
    var b := brackets[i];
    var width := x - prev;
    var e := Entry(i + 1, b.rate * 100.0, width, width * b.rate);
    var entries := BreakdownFrom(brackets, i, prev, x);
    assert entries == [e] by {
      SliceOf(b, i, prev, x, width);
      BreakdownStep(brackets, i, prev, x);
    }
    assert TaxSum(entries) == e.tax && IncomeSum(entries) == e.income by {
      SumsOfCons(e, []);
      assert [e] + [] == [e];
    }
    FitsOwnBracket(brackets, i, x);
    SliceTax(width, prev, x, b.rate);
    assert TaxSum(entries) == Formula(b, x) - Formula(b, prev);
  }

  /** When `x` lies above bracket `i`, the breakdown from `i` starts with the full slice of bracket `i`. */
  lemma FullSliceFirst(brackets: seq<Bracket>, i: nat, x: real)
    requires WellFormed(brackets) && i < |brackets| && x > PrevMax(brackets, i)
    requires !Within(x, brackets[i].max)
    ensures i + 1 < |brackets| && brackets[i].max.Finite?
    ensures var slice := SliceAt(brackets[i], i, PrevMax(brackets, i), x);
            && |slice| == 1
            && BreakdownFrom(brackets, i, PrevMax(brackets, i), x)
               == [slice[0]] + BreakdownFrom(brackets, i + 1, brackets[i].max.value, x)
            && slice[0].level == i + 1
            && slice[0].ratePercent == brackets[i].rate * 100.0
            && slice[0].income == brackets[i].max.value - PrevMax(brackets, i)
            && slice[0].tax == slice[0].income * brackets[i].rate
  {
    var prev, b := PrevMax(brackets, i), brackets[i];
    NextBracket(brackets, i, x);
    var m := b.max.value;
    assert prev < m by {
      assert BoundaryAgrees(brackets, i);
    }
    SliceOf(b, i, prev, x, m - prev);
    BreakdownStep(brackets, i, prev, x);
  }

  /** A full slice of bracket `i` in front of the breakdown from bracket `i + 1` keeps the sums. */
  lemma SumsStep(brackets: seq<Bracket>, i: nat, x: real)
    requires WellFormed(brackets) && i < |brackets| && x > PrevMax(brackets, i)
    requires !Within(x, brackets[i].max)
    requires i + 1 < |brackets| && SumsFrom(brackets, i + 1, x)
    ensures SumsFrom(brackets, i, x)
  {
    FullSliceFirst(brackets, i, x);
    NextBracket(brackets, i, x);
    var prev, b, c := PrevMax(brackets, i), brackets[i], brackets[i + 1];
    var m := b.max.value;
    var e := SliceAt(b, i, prev, x)[0];
    var rest := BreakdownFrom(brackets, i + 1, m, x);
    var taxAbove := TaxFrom(brackets, i + 1, x);
    assert IncomeSum(rest) == x - m && TaxSum(rest) == taxAbove - Formula(c, m) by {
      assert SumsFrom(brackets, i + 1, x);
    }
    SumsOfSlices(e, rest, b, prev, m, x, taxAbove, Formula(c, m));
  }

  /** The sums of a full slice followed by the later slices, as plain arithmetic. */
  lemma SumsOfSlices(e: Entry, rest: seq<Entry>, b: Bracket, prev: real, m: real, x: real,
                     taxAbove: real, atBoundAbove: real)
    requires e.income == m - prev && e.tax == e.income * b.rate
    requires IncomeSum(rest) == x - m && TaxSum(rest) == taxAbove - atBoundAbove
    requires atBoundAbove == Formula(b, m)
    ensures IncomeSum([e] + rest) == x - prev
    ensures TaxSum([e] + rest) == taxAbove - Formula(b, prev)
  {
    SumsOfCons(e, rest);
    SliceTax(e.income, prev, m, b.rate);
  }

  /**
   * From bracket `i` on, the slice incomes add up to the income above the
   * bracket's lower end, and the slice taxes to the formula tax minus the
   * formula tax at that lower end.
   */
  lemma {:induction false} BreakdownFromSums(brackets: seq<Bracket>, i: nat, x: real)
    requires WellFormed(brackets) && i < |brackets| && x > PrevMax(brackets, i)
    ensures SumsFrom(brackets, i, x)
    decreases |brackets| - i
  {
    if Within(x, brackets[i].max) {
      SumsInOwnBracket(brackets, i, x);
    } else {
      NextBracket(brackets, i, x);
      BreakdownFromSums(brackets, i + 1, x);
      SumsStep(brackets, i, x);
    }
  }

  /**
   * From bracket `i` on, every entry is a genuine slice of a bracket at or
   * after `i`, and the entries come in strictly increasing bracket order.
   */
  lemma {:induction false} BreakdownFromEntries(brackets: seq<Bracket>, i: nat, x: real)
    requires WellFormed(brackets) && i < |brackets| && x > PrevMax(brackets, i)
    ensures var entries := BreakdownFrom(brackets, i, PrevMax(brackets, i), x);
            && (forall e :: e in entries ==> EntryFits(brackets, e) && e.level > i)
            && LevelsIncreasing(entries)
    decreases |brackets| - i
  {
    var prev := PrevMax(brackets, i);
    var b := brackets[i];
    var entries := BreakdownFrom(brackets, i, prev, x);
    if Within(x, b.max) {
      EntriesInOwnBracket(brackets, i, x);
    } else {
      FullSliceFirst(brackets, i, x);
      NextBracket(brackets, i, x);
      var e := SliceAt(b, i, prev, x)[0];
      var rest := BreakdownFrom(brackets, i + 1, b.max.value, x);
      BreakdownFromEntries(brackets, i + 1, x);
      assert EntryFits(brackets, e) by {
        assert BoundaryAgrees(brackets, i);
      }
      EntriesOfCons(brackets, i, e, rest);
    }
  }

  /** The last bracket of the walk contributes one genuine slice. */
  lemma EntriesInOwnBracket(brackets: seq<Bracket>, i: nat, x: real)
    requires i < |brackets| && x > PrevMax(brackets, i)
    requires Within(x, brackets[i].max)
    ensures var entries := BreakdownFrom(brackets, i, PrevMax(brackets, i), x);
            && |entries| == 1
            && EntryFits(brackets, entries[0]) && entries[0].level == i + 1
  {
    var prev := PrevMax(brackets, i);
    var b := brackets[i];
    var width := x - prev;
    var e := Entry(i + 1, b.rate * 100.0, width, width * b.rate);
    assert BreakdownFrom(brackets, i, prev, x) == [e] by {
      SliceOf(b, i, prev, x, width);
      BreakdownStep(brackets, i, prev, x);
    }
    assert EntryFits(brackets, e);
  }

  /** A slice of bracket `i` in front of genuine slices of later brackets, in order, keeps both properties. */
  lemma EntriesOfCons(brackets: seq<Bracket>, i: nat, e: Entry, rest: seq<Entry>)
    requires EntryFits(brackets, e) && e.level == i + 1
    requires forall f :: f in rest ==> EntryFits(brackets, f) && f.level > i + 1
    requires LevelsIncreasing(rest)
    ensures forall f :: f in [e] + rest ==> EntryFits(brackets, f) && f.level > i
    ensures LevelsIncreasing([e] + rest)
  {
    var entries := [e] + rest;
    forall j, k | 0 <= j < k < |entries|
      ensures entries[j].level < entries[k].level
    {
      assert entries[k] == rest[k - 1] && entries[k] in rest;
      if j > 0 {
        assert entries[j] == rest[j - 1];
      }
    }
  }

  /** The slice taxes of the breakdown add up to the formula tax of the first fitting bracket. */
  lemma BreakdownSumsToPit(regime: Regime, taxableIncome: real)
    ensures var brackets := TaxConfig(regime).brackets;
            TaxSum(Breakdown(brackets, taxableIncome)) == Pit(brackets, taxableIncome)
  {
    TablesWellFormed(regime);
    BreakdownAgrees(TaxConfig(regime).brackets, taxableIncome);
  }

  lemma BreakdownAgrees(brackets: seq<Bracket>, taxableIncome: real)
    requires WellFormed(brackets)
    ensures TaxSum(Breakdown(brackets, taxableIncome)) == Pit(brackets, taxableIncome)
    ensures taxableIncome > 0.0 ==> IncomeSum(Breakdown(brackets, taxableIncome)) == taxableIncome
  {
    if taxableIncome > 0.0 {
      BreakdownFromSums(brackets, 0, taxableIncome);
      assert Formula(brackets[0], 0.0) == 0.0;
    }
  }

  /**
   * Shape of the breakdown: empty for a non-positive income; otherwise genuine
   * slices in strictly increasing bracket order whose incomes add up to the
   * taxable income.
   */
  lemma BreakdownSlices(regime: Regime, taxableIncome: real)
    ensures var brackets := TaxConfig(regime).brackets;
            var entries := Breakdown(brackets, taxableIncome);
            && (taxableIncome <= 0.0 ==> entries == [])
            && (taxableIncome > 0.0 ==>
                  && (forall e :: e in entries ==> EntryFits(brackets, e))
                  && LevelsIncreasing(entries)
                  && IncomeSum(entries) == taxableIncome)
  {
    if taxableIncome > 0.0 {
      TablesWellFormed(regime);
      BreakdownAgrees(TaxConfig(regime).brackets, taxableIncome);
      BreakdownFromEntries(TaxConfig(regime).brackets, 0, taxableIncome);
    }
  }
}
