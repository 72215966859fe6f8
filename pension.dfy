/**
 * The public pension estimate the projection uses each year: contribution
 * months from the work history, the basic (national) pension, the
 * employees' pension from the average standard remuneration, the
 * adjustment for claiming early or late, and the earnings test for
 * pensioners who keep working. Amounts are in yen until the last step,
 * which converts to 万円 rounded to one decimal.
 *
 * The constants of the pension system live in a separate file of the
 * program; here they are the parameter `c`.
 */
module PensionCalculations {
  import opened Money
  import opened SimulatorTypes
  import opened Calculations

  /** The constants of the pension system, in yen, months and per-month rates. */
  datatype PensionConstants = PensionConstants(
    fullPensionMonths: int,
    basicPensionFullAmount: real,
    welfareRateBefore2003: real,
    welfareRateAfter2003: real,
    standardPensionStartAge: int,
    earlyRatePerMonth: real,
    delayedRatePerMonth: real,
    thresholdUnder65: real,
    thresholdOver65: real,
    maxMonthlyBonus: real,
    remunerationTable: seq<Grade>)

  /** What the formulas need of the constants: a positive month count and a non-empty grade table. */
  predicate Valid(c: PensionConstants)
  {
    c.fullPensionMonths > 0 && |c.remunerationTable| > 0
  }

  /** Constants with no negative amount or rate, as the real system's are. */
  predicate NonNegative(c: PensionConstants)
  {
    && c.basicPensionFullAmount >= 0.0
    && c.welfareRateBefore2003 >= 0.0
    && c.welfareRateAfter2003 >= 0.0
    && c.earlyRatePerMonth >= 0.0
    && c.delayedRatePerMonth >= 0.0
    && forall i :: 0 <= i < |c.remunerationTable| ==> c.remunerationTable[i].amount >= 0.0
  }

  /** The name of the salary line and of the spouse's income line in the personal income table. */
  const SalaryName: string := "給与収入"
  const SpouseIncomeName: string := "配偶者収入"

  // ---------------------------------------------------------------------------
  // Standard remuneration and bonus
  // ---------------------------------------------------------------------------

  /** `calculateStandardRemuneration`: the grade table of the constants applied to a monthly income in yen. */
  function StandardRemuneration(c: PensionConstants, monthlyIncome: real): (r: real)
    requires Valid(c)
    ensures monthlyIncome <= 0.0 ==> r == 0.0
    ensures monthlyIncome > 0.0 ==> exists i :: 0 <= i < |c.remunerationTable| && r == c.remunerationTable[i].amount
    ensures forall i :: (Contiguous(c.remunerationTable) && monthlyIncome > 0.0 && 0 <= i < |c.remunerationTable|
                         && InGrade(c.remunerationTable[i], monthlyIncome)) ==> r == c.remunerationTable[i].amount
    ensures monthlyIncome > 0.0 && (forall j :: 0 <= j < |c.remunerationTable| ==> !InGrade(c.remunerationTable[j], monthlyIncome)) ==>
              r == (if monthlyIncome < c.remunerationTable[0].min then c.remunerationTable[0].amount
                    else c.remunerationTable[|c.remunerationTable| - 1].amount)
    ensures Contiguous(c.remunerationTable) && 0.0 < monthlyIncome < c.remunerationTable[0].min ==> r == c.remunerationTable[0].amount
  {
    BelowContiguousTable(c.remunerationTable, monthlyIncome);
    forall i | Contiguous(c.remunerationTable) && monthlyIncome > 0.0 && 0 <= i < |c.remunerationTable|
                && InGrade(c.remunerationTable[i], monthlyIncome)
      ensures LookupRemuneration(c.remunerationTable, monthlyIncome) == c.remunerationTable[i].amount
    {
      ContiguousLookup(c.remunerationTable, monthlyIncome, i);
    }
    LookupRemuneration(c.remunerationTable, monthlyIncome)
  }

  /** `calculateStandardBonus`: a bonus counts up to the per-payment cap. */
  function StandardBonus(c: PensionConstants, bonusAmount: real): (r: real)
    ensures r <= c.maxMonthlyBonus && r <= bonusAmount
    ensures r == bonusAmount || r == c.maxMonthlyBonus
  {
    Min(bonusAmount, c.maxMonthlyBonus)
  }

  // ---------------------------------------------------------------------------
  // Contribution months
  // ---------------------------------------------------------------------------

  /**
   * The part of a profile the month count reads. `workStartAge` and
   * `workEndAge` are 0 when unset, which falls back to 22 and 60.
   */
  datatype PensionProfile = PensionProfile(currentAge: int, occupation: Occupation, workStartAge: int, workEndAge: int)

  datatype PensionMonths = PensionMonths(
    welfare: int,
    welfareBefore2003: int,
    welfareAfter2003: int,
    national: int,
    category3: int)

  /** Months worked, capped at the full contribution period. */
  function CappedWorkingMonths(c: PensionConstants, p: PensionProfile): (r: int)
    ensures r <= c.fullPensionMonths
    ensures c.fullPensionMonths >= 0 ==> r >= 0
    ensures OrDefault(p.workEndAge, 60) >= OrDefault(p.workStartAge, 22) + c.fullPensionMonths / 12 + 1 ==> r == c.fullPensionMonths
  {
    var workingYears := MaxInt(0, OrDefault(p.workEndAge, 60) - OrDefault(p.workStartAge, 22));
    MinInt(workingYears * 12, c.fullPensionMonths)
  }

  /**
   * Months worked before April 2003, counted from the work start age to the
   * age the person had in April 2003 (born `currentYear - currentAge`), at most 240.
   */
  function MonthsUntil2003(p: PensionProfile, currentYear: int): (r: int)
    ensures 0 <= r <= 240
    ensures var d := 2003 - (currentYear - p.currentAge) - OrDefault(p.workStartAge, 22);
            r == if d < 0 then 0 else MinInt(12 * d + 4, 240)
  {
    var workStartAge := OrDefault(p.workStartAge, 22);
    var birthYear := currentYear - p.currentAge;
    var ageIn200304 := (2003 - birthYear) as real + 4.0 / 12.0;
    if ageIn200304 >= workStartAge as real then
      MinInt(Round((ageIn200304 - workStartAge as real) * 12.0), 240)
    else 0
  }

  /**
   * `calculatePensionMonths` as the program writes it: the months before
   * April 2003 are not limited by the months actually worked, so for someone
   * who stopped working before 2003 they exceed the employees' pension months.
   */
  function PensionMonthsAsWritten(c: PensionConstants, p: PensionProfile, currentYear: int): (r: PensionMonths)
  {
    var capped := CappedWorkingMonths(c, p);
    var before := MonthsUntil2003(p, currentYear);
    var after := MaxInt(0, capped - before);
    match p.occupation
      case CompanyEmployee => PensionMonths(capped, before, after, 0, 0)
      case PartTimeWithPension => PensionMonths(capped, before, after, 0, 0)
      case PartTimeWithoutPension => PensionMonths(0, 0, 0, capped, 0)
      case SelfEmployed => PensionMonths(0, 0, 0, capped, 0)
      case Homemaker => PensionMonths(0, 0, 0, 0, capped)
  }

  /** A retiree of 90 in 2025 who worked from 50 to 60 as an employee: 120 months, 220 of them "before 2003". */
  lemma PensionMonthsAsWrittenOvercounts(c: PensionConstants)
    requires c.fullPensionMonths == 480
    ensures var m := PensionMonthsAsWritten(c, PensionProfile(90, CompanyEmployee, 50, 0), 2025);
            m.welfare == 120 && m.welfareBefore2003 == 220 && m.welfareAfter2003 == 0
            && m.welfareBefore2003 + m.welfareAfter2003 != m.welfare
  {
  }

  /**
   * The contribution months by pension category: employees' pension for
   * employees (split at April 2003), national pension for the self-employed
   * and part-timers without cover, category 3 for homemakers. The months
   * before April 2003 are limited to the months worked.
   */
  function PensionMonthsOf(c: PensionConstants, p: PensionProfile, currentYear: int): (r: PensionMonths)
    requires Valid(c)
    ensures r.welfare + r.national + r.category3 == CappedWorkingMonths(c, p)
    ensures r.welfareBefore2003 + r.welfareAfter2003 == r.welfare
    ensures r.welfareBefore2003 >= 0 && r.welfareAfter2003 >= 0
    ensures r.welfare >= 0 && r.national >= 0 && r.category3 >= 0
    ensures HasEmployeePension(p.occupation) ==> r.welfare == CappedWorkingMonths(c, p)
    ensures p.occupation == Homemaker ==> r.category3 == CappedWorkingMonths(c, p)
    ensures !HasEmployeePension(p.occupation) && p.occupation != Homemaker ==> r.national == CappedWorkingMonths(c, p)
  {
    var capped := CappedWorkingMonths(c, p);
    var before := MinInt(MonthsUntil2003(p, currentYear), capped);
    var after := capped - before;
    match p.occupation
      case CompanyEmployee => PensionMonths(capped, before, after, 0, 0)
      case PartTimeWithPension => PensionMonths(capped, before, after, 0, 0)
      case PartTimeWithoutPension => PensionMonths(0, 0, 0, capped, 0)
      case SelfEmployed => PensionMonths(0, 0, 0, capped, 0)
      case Homemaker => PensionMonths(0, 0, 0, 0, capped)
  }

  /** Where the months before 2003 fit in the months worked, the corrected count is the program's. */
  lemma PensionMonthsAgree(c: PensionConstants, p: PensionProfile, currentYear: int)
    requires Valid(c)
    requires MonthsUntil2003(p, currentYear) <= CappedWorkingMonths(c, p)
    ensures PensionMonthsOf(c, p, currentYear) == PensionMonthsAsWritten(c, p, currentYear)
  {
  }

  // ---------------------------------------------------------------------------
  // Average salary
  // ---------------------------------------------------------------------------

  function PositivePart(amount: real): real { if amount > 0.0 then amount else 0.0 }

  function PositiveCount(amount: real): real { if amount > 0.0 then 1.0 else 0.0 }

  /** The gross amounts of an income line when it keeps them, its amounts otherwise. */
  function SalaryData(item: IncomeItem): YearMap
  {
    if item.originalAmounts.Some? then item.originalAmounts.value else item.amounts
  }

  /** The total and the number of the positive entries of an amount table. */
  ghost function PositiveTotal(m: YearMap): real { SumOverKeys(m, m.Keys, PositivePart) }

  ghost function PositiveYears(m: YearMap): real { SumOverKeys(m, m.Keys, PositiveCount) }

  /** A `forEach` over the entries of `m` adding up the positive ones and counting them. */
  method PositiveTotals(m: YearMap) returns (total: real, count: real)
    ensures total == PositiveTotal(m) && count == PositiveYears(m)
  {
    total, count := 0.0, 0.0;
    var rest := m.Keys;
    while rest != {}
      invariant rest <= m.Keys
      invariant total + SumOverKeys(m, rest, PositivePart) == PositiveTotal(m)
      invariant count + SumOverKeys(m, rest, PositiveCount) == PositiveYears(m)
      decreases rest
    {
      NonEmptyHasMember(rest);
      var y :| y in rest;
      SumOverKeysRemove(m, rest, PositivePart, y);
      SumOverKeysRemove(m, rest, PositiveCount, y);
      if m[y] > 0.0 {
        total := total + m[y];
        count := count + 1.0;
      }
      rest := rest - {y};
    }
  }

  /** The positive entries add up to nothing exactly when there are none. */
  lemma {:induction false} PositiveTotalZeroIffNone(m: YearMap, keys: set<int>)
    requires keys <= m.Keys
    ensures SumOverKeys(m, keys, PositivePart) >= 0.0 && SumOverKeys(m, keys, PositiveCount) >= 0.0
    ensures SumOverKeys(m, keys, PositivePart) == 0.0 <==> SumOverKeys(m, keys, PositiveCount) == 0.0
    decreases keys
  {
    if keys != {} {
      NonEmptyHasMember(keys);
      var y :| y in keys;
      SumOverKeysRemove(m, keys, PositivePart, y);
      SumOverKeysRemove(m, keys, PositiveCount, y);
      PositiveTotalZeroIffNone(m, keys - {y});
    }
  }

  /** When every positive entry is `v`, the total is `v` times their number. */
  lemma {:induction false} ConstantHistoryTotal(m: YearMap, keys: set<int>, v: real)
    requires keys <= m.Keys
    requires forall y :: y in keys && m[y] > 0.0 ==> m[y] == v
    ensures ScaledBy(SumOverKeys(m, keys, PositivePart), v, SumOverKeys(m, keys, PositiveCount))
    decreases keys
  {
    if keys != {} {
      NonEmptyHasMember(keys);
      var y :| y in keys;
      var rest := keys - {y};
      SumOverKeysRemove(m, keys, PositivePart, y);
      SumOverKeysRemove(m, keys, PositiveCount, y);
      ConstantHistoryTotal(m, rest, v);
      var first, one := PositivePart(m[y]), PositiveCount(m[y]);
      assert first == v * one;
      ScaledSumStep(first, one, SumOverKeys(m, rest, PositivePart), SumOverKeys(m, rest, PositiveCount), v,
                    SumOverKeys(m, keys, PositivePart), SumOverKeys(m, keys, PositiveCount));
    }
  }

  /** `total` is `v` times `n`. */
  predicate ScaledBy(total: real, v: real, n: real)
  {
    total == v * n
  }

  /** Adding one more `v`-multiple to a `v`-multiple gives a `v`-multiple of the summed counts. */
  lemma ScaledSumStep(first: real, one: real, part: real, count: real, v: real, total: real, n: real)
    requires first == v * one && ScaledBy(part, v, count)
    requires total == first + part && n == one + count
    ensures ScaledBy(total, v, n)
  {
  }

  /**
   * `calculateAverageSalary`: the monthly salary in yen averaged over the
   * years with a positive salary; with no such year, 300,000 yen for an
   * employee and 0 otherwise; 0 without a salary line.
   */
  ghost function AverageSalarySpec(occupation: Occupation, income: seq<IncomeItem>): real
  {
    match FirstIncomeNamed(income, SalaryName)
      case None => 0.0
      case Some(i) =>
        var data := SalaryData(income[i]);
        var total, count := PositiveTotal(data), PositiveYears(data);
        if count == 0.0 || total == 0.0 then
          (if HasEmployeePension(occupation) then 360.0 * 10000.0 / 12.0 else 0.0)
        else Round(total / count * 10000.0 / 12.0) as real
  }

  method AverageSalary(occupation: Occupation, income: seq<IncomeItem>) returns (r: real)
    ensures r == AverageSalarySpec(occupation, income)
  {
    var found := FirstIncomeNamed(income, SalaryName);
    if found.None? {
      return 0.0;
    }
    var total, count := PositiveTotals(SalaryData(income[found.value]));
    if count == 0.0 || total == 0.0 {
      if HasEmployeePension(occupation) {
        r := 360.0 * 10000.0 / 12.0;
      } else {
        r := 0.0;
      }
    } else {
      r := Round(total / count * 10000.0 / 12.0) as real;
    }
  }

  /** A salary history that is the same every year averages to that salary, as a rounded monthly amount in yen. */
  lemma ConstantSalaryAverage(occupation: Occupation, income: seq<IncomeItem>, i: nat, v: real)
    requires FirstIncomeNamed(income, SalaryName) == Some(i)
    requires v > 0.0 && PositiveYears(SalaryData(income[i])) > 0.0
    requires var data := SalaryData(income[i]); forall y :: y in data && data[y] > 0.0 ==> data[y] == v
    ensures AverageSalarySpec(occupation, income) == Round(v * 10000.0 / 12.0) as real
  {
    var data := SalaryData(income[i]);
    ConstantHistoryTotal(data, data.Keys, v);
    ScaledAverage(PositiveTotal(data), v, PositiveYears(data));
  }

  /** A positive multiple of `n` divided by `n` is the factor again, and is not zero. */
  lemma ScaledAverage(total: real, v: real, n: real)
    requires ScaledBy(total, v, n) && n > 0.0 && v > 0.0
    ensures total / n == v && total != 0.0
  {
  }

  // ---------------------------------------------------------------------------
  // Pension amounts
  // ---------------------------------------------------------------------------

  /** `full * Math.min(part / whole, 1)`: the part of `full` that `part` out of `whole` earns. */
  function Share(full: real, whole: real, part: real): real
    requires whole > 0.0
  {
    full * Min(part / whole, 1.0)
  }

  /** The share is all of `full` once `part` reaches `whole`, and between 0 and `full` otherwise. */
  lemma ShareBounds(full: real, whole: real, part: real)
    requires whole > 0.0
    ensures part >= whole ==> Share(full, whole, part) == full
    ensures full >= 0.0 && part >= 0.0 ==> 0.0 <= Share(full, whole, part) <= full
  {
    if part >= whole {
      DivMonotone(whole, part, whole);
      assert Min(part / whole, 1.0) == 1.0;
    }
    if full >= 0.0 && part >= 0.0 {
      DivMonotone(0.0, part, whole);
      MulMonotone(full, 0.0, Min(part / whole, 1.0));
      MulMonotone(full, Min(part / whole, 1.0), 1.0);
    }
  }

  lemma ShareMonotone(full: real, whole: real, m: real, n: real)
    requires full >= 0.0 && whole > 0.0 && m <= n
    ensures Share(full, whole, m) <= Share(full, whole, n)
  {
    DivMonotone(m, n, whole);
    MulMonotone(full, Min(m / whole, 1.0), Min(n / whole, 1.0));
  }

  /** `calculateBasicPensionAmount`: the full amount pro rata to the months paid, at most the full amount, in whole yen. */
  function BasicPensionAmount(c: PensionConstants, totalMonths: int): (r: real)
    requires Valid(c)
    ensures IsWhole(r)
    ensures totalMonths >= c.fullPensionMonths ==> r == Floor(c.basicPensionFullAmount)
    ensures c.basicPensionFullAmount >= 0.0 && totalMonths >= 0 ==> 0.0 <= r <= c.basicPensionFullAmount
  {
    var share := Share(c.basicPensionFullAmount, c.fullPensionMonths as real, totalMonths as real);
    ShareBounds(c.basicPensionFullAmount, c.fullPensionMonths as real, totalMonths as real);
    FloorNonNegativeWhen(c.basicPensionFullAmount >= 0.0 && totalMonths >= 0, share);
    Floor(share)
  }

  /** More contribution months never lower the basic pension. */
  lemma BasicPensionMonotone(c: PensionConstants, m: int, n: int)
    requires Valid(c) && c.basicPensionFullAmount >= 0.0 && m <= n
    ensures BasicPensionAmount(c, m) <= BasicPensionAmount(c, n)
  {
    var sm := Share(c.basicPensionFullAmount, c.fullPensionMonths as real, m as real);
    var sn := Share(c.basicPensionFullAmount, c.fullPensionMonths as real, n as real);
    ShareMonotone(c.basicPensionFullAmount, c.fullPensionMonths as real, m as real, n as real);
    FloorMonotone(sm, sn);
  }

  /** Accrual at the pre- and post-April-2003 rates on the average standard remuneration. */
  function Accrual(c: PensionConstants, standard: real, monthsBefore2003: int, monthsAfter2003: int): real
  {
    standard * c.welfareRateBefore2003 * monthsBefore2003 as real
    + standard * c.welfareRateAfter2003 * monthsAfter2003 as real
  }

  /** `calculateWelfarePensionAmount`: the accrual in whole yen. */
  function WelfarePensionAmount(c: PensionConstants, standard: real, monthsBefore2003: int, monthsAfter2003: int): (r: real)
    ensures IsWhole(r)
    ensures r <= Accrual(c, standard, monthsBefore2003, monthsAfter2003) < r + 1.0
  {
    Floor(Accrual(c, standard, monthsBefore2003, monthsAfter2003))
  }

  lemma WelfarePensionNonNegative(c: PensionConstants, standard: real, before: int, after: int)
    requires NonNegative(c) && standard >= 0.0 && before >= 0 && after >= 0
    ensures WelfarePensionAmount(c, standard, before, after) >= 0.0
  {
    MulNonNegative(standard, c.welfareRateBefore2003);
    MulNonNegative(standard * c.welfareRateBefore2003, before as real);
    MulNonNegative(standard, c.welfareRateAfter2003);
    MulNonNegative(standard * c.welfareRateAfter2003, after as real);
    FloorNonNegative(Accrual(c, standard, before, after));
  }

  /** Where the old rate is the higher one, counting a month before 2003 instead of after never lowers the pension. */
  lemma WelfareEarlierMonthWorthMore(c: PensionConstants, standard: real, before: int, after: int)
    requires standard >= 0.0 && c.welfareRateBefore2003 >= c.welfareRateAfter2003
    ensures WelfarePensionAmount(c, standard, before, after + 1) <= WelfarePensionAmount(c, standard, before + 1, after)
  {
    AccrualEarlierMonth(c, standard, before, after);
    FloorMonotone(Accrual(c, standard, before, after + 1), Accrual(c, standard, before + 1, after));
  }

  lemma AccrualEarlierMonth(c: PensionConstants, standard: real, before: int, after: int)
    requires standard >= 0.0 && c.welfareRateBefore2003 >= c.welfareRateAfter2003
    ensures Accrual(c, standard, before, after + 1) <= Accrual(c, standard, before + 1, after)
  {
    var a, b := standard * c.welfareRateBefore2003, standard * c.welfareRateAfter2003;
    MulMonotone(standard, c.welfareRateAfter2003, c.welfareRateBefore2003);
    var x, y := before as real, after as real;
    assert Accrual(c, standard, before, after + 1) == a * x + b * (y + 1.0);
    assert Accrual(c, standard, before + 1, after) == a * (x + 1.0) + b * y;
    assert a * (x + 1.0) + b * y - (a * x + b * (y + 1.0)) == a - b;
  }

  /** `calculatePensionAdjustmentRate`: minus the early rate per month claimed before the standard age, plus the delayed rate per month after it. */
  function AdjustmentRate(c: PensionConstants, pensionStartAge: int): (r: real)
    ensures pensionStartAge == c.standardPensionStartAge ==> r == 1.0
    ensures pensionStartAge < c.standardPensionStartAge ==>
              r == 1.0 - ((c.standardPensionStartAge - pensionStartAge) * 12) as real * c.earlyRatePerMonth
    ensures pensionStartAge > c.standardPensionStartAge ==>
              r == 1.0 + ((pensionStartAge - c.standardPensionStartAge) * 12) as real * c.delayedRatePerMonth
  {
    var monthDiff := (pensionStartAge - c.standardPensionStartAge) * 12;
    if monthDiff == 0 then 1.0
    else if monthDiff < 0 then 1.0 - (-monthDiff) as real * c.earlyRatePerMonth
    else 1.0 + monthDiff as real * c.delayedRatePerMonth
  }

  /** With non-negative rates, claiming later never lowers the rate. */
  lemma AdjustmentRateMonotone(c: PensionConstants, a: int, b: int)
    requires c.earlyRatePerMonth >= 0.0 && c.delayedRatePerMonth >= 0.0 && a <= b
    ensures AdjustmentRate(c, a) <= AdjustmentRate(c, b)
  {
    var s := c.standardPensionStartAge;
    if a < s && b < s {
      assert ((s - a) * 12) as real * c.earlyRatePerMonth >= ((s - b) * 12) as real * c.earlyRatePerMonth;
    } else if a > s && b > s {
      assert ((a - s) * 12) as real * c.delayedRatePerMonth <= ((b - s) * 12) as real * c.delayedRatePerMonth;
    } else {
      AdjustmentRateEarlyAtMostOne(c, a);
      AdjustmentRateLateAtLeastOne(c, b);
    }
  }

  /** Claiming at or before the standard age gives a rate of at most 1. */
  lemma AdjustmentRateEarlyAtMostOne(c: PensionConstants, age: int)
    requires c.earlyRatePerMonth >= 0.0 && age <= c.standardPensionStartAge
    ensures AdjustmentRate(c, age) <= 1.0
  {
    if age < c.standardPensionStartAge {
      MulNonNegative(((c.standardPensionStartAge - age) * 12) as real, c.earlyRatePerMonth);
    }
  }

  /** Claiming at or after the standard age gives a rate of at least 1. */
  lemma AdjustmentRateLateAtLeastOne(c: PensionConstants, age: int)
    requires c.delayedRatePerMonth >= 0.0 && age >= c.standardPensionStartAge
    ensures AdjustmentRate(c, age) >= 1.0
  {
    if age > c.standardPensionStartAge {
      MulNonNegative(((age - c.standardPensionStartAge) * 12) as real, c.delayedRatePerMonth);
    }
  }

  datatype PensionParts = PensionParts(basic: real, welfare: real)

  lemma FloorNonNegativeWhen(b: bool, x: real)
    ensures b && x >= 0.0 ==> Floor(x) >= 0.0
  {
    if b && x >= 0.0 {
      FloorNonNegative(x);
    }
  }

  /**
   * `adjustPensionForWorking`: when salary plus monthly pension exceed the
   * threshold for the pensioner's age, half the excess is withheld from the
   * employees' pension, never more than it; the basic pension is untouched.
   */
  function AdjustForWorking(c: PensionConstants, basic: real, welfare: real, monthlyIncome: real, age: int): (r: PensionParts)
    ensures r.basic == basic
    ensures monthlyIncome <= 0.0 ==> r.welfare == welfare
    ensures monthlyIncome > 0.0 ==> IsWhole(r.welfare)
    ensures monthlyIncome > 0.0 && welfare >= 0.0 ==> 0.0 <= r.welfare <= welfare
    ensures monthlyIncome > 0.0 && welfare >= 0.0 &&
            monthlyIncome + basic / 12.0 + welfare / 12.0 <= (if age < 65 then c.thresholdUnder65 else c.thresholdOver65)
            ==> r.welfare == Floor(welfare)
  {
    if monthlyIncome <= 0.0 then PensionParts(basic, welfare)
    else
      var threshold := if age < 65 then c.thresholdUnder65 else c.thresholdOver65;
      var monthlyWelfare := welfare / 12.0;
      var totalMonthlyIncome := monthlyIncome + basic / 12.0 + monthlyWelfare;
      var excessAmount := Max(0.0, totalMonthlyIncome - threshold);
      var suspensionAmount := Min(monthlyWelfare, excessAmount / 2.0);
      assert (monthlyWelfare - suspensionAmount) * 12.0 == welfare - 12.0 * suspensionAmount;
      assert welfare >= 0.0 ==> 0.0 <= suspensionAmount <= monthlyWelfare;
      FloorNonNegativeWhen(welfare >= 0.0, (monthlyWelfare - suspensionAmount) * 12.0);
      PensionParts(basic, Floor((monthlyWelfare - suspensionAmount) * 12.0))
  }

  /**
   * Steps 5 to 8 of the yearly estimate: apply the claiming-age rate to both
   * parts in whole yen, the earnings test when the pensioner earns a salary
   * (`monthlyIncome` is the monthly salary in yen), and convert the sum to
   * 万円 rounded to one decimal.
   */
  function AdjustedPension(c: PensionConstants, basic: real, welfare: real, rate: real,
                           monthlyIncome: Option<real>, age: int): (r: real)
    ensures IsTenth(r)
    ensures monthlyIncome.None? ==> r == Round1((Floor(basic * rate) + Floor(welfare * rate)) / 10000.0)
  {
    var adjustedBasic, adjustedWelfare := Floor(basic * rate), Floor(welfare * rate);
    var parts := if monthlyIncome.Some? then AdjustForWorking(c, adjustedBasic, adjustedWelfare, monthlyIncome.value, age)
                 else PensionParts(adjustedBasic, adjustedWelfare);
    Round1((parts.basic + parts.welfare) / 10000.0)
  }

  /** The earnings test can only lower the estimate. */
  lemma AdjustedPensionWorkingBelow(c: PensionConstants, basic: real, welfare: real, rate: real, monthlyIncome: real, age: int)
    requires welfare >= 0.0 && rate >= 0.0
    ensures AdjustedPension(c, basic, welfare, rate, Some(monthlyIncome), age) <= AdjustedPension(c, basic, welfare, rate, None, age)
  {
    MulNonNegative(welfare, rate);
    var b, w := Floor(basic * rate), Floor(welfare * rate);
    var parts := AdjustForWorking(c, b, w, monthlyIncome, age);
    assert parts.basic + parts.welfare <= b + w;
    Round1Monotone((parts.basic + parts.welfare) / 10000.0, (b + w) / 10000.0);
  }

  /**
   * Steps 1 to 8 for one person: the months from the profile, the basic
   * pension from all months, the employees' pension from the average monthly
   * salary (for employees only), then `AdjustedPension`.
   */
  function PensionFromProfile(c: PensionConstants, p: PensionProfile, pensionStartAge: int, averageMonthly: real,
                              monthlyIncome: Option<real>, age: int, currentYear: int): (r: real)
    requires Valid(c)
    ensures IsTenth(r)
  {
    var m := PensionMonthsOf(c, p, currentYear);
    var basic := BasicPensionAmount(c, m.welfare + m.national + m.category3);
    var welfare := if HasEmployeePension(p.occupation)
                   then WelfarePensionAmount(c, StandardRemuneration(c, averageMonthly), m.welfareBefore2003, m.welfareAfter2003)
                   else 0.0;
    AdjustedPension(c, basic, welfare, AdjustmentRate(c, pensionStartAge), monthlyIncome, age)
  }

  /** The employees' pension part that `PensionFromProfile` computes is never negative under non-negative constants. */
  lemma ProfileWelfareNonNegative(c: PensionConstants, p: PensionProfile, averageMonthly: real, currentYear: int)
    requires Valid(c) && NonNegative(c)
    ensures var m := PensionMonthsOf(c, p, currentYear);
            WelfarePensionAmount(c, StandardRemuneration(c, averageMonthly), m.welfareBefore2003, m.welfareAfter2003) >= 0.0
  {
    var m := PensionMonthsOf(c, p, currentYear);
    var s := StandardRemuneration(c, averageMonthly);
    assert s >= 0.0;
    WelfarePensionNonNegative(c, s, m.welfareBefore2003, m.welfareAfter2003);
  }

  /** Working while drawing the pension never raises one person's estimate. */
  lemma ProfileWorkingBelow(c: PensionConstants, p: PensionProfile, pensionStartAge: int, averageMonthly: real,
                            monthlyIncome: real, age: int, currentYear: int)
    requires Valid(c) && NonNegative(c) && AdjustmentRate(c, pensionStartAge) >= 0.0
    ensures PensionFromProfile(c, p, pensionStartAge, averageMonthly, Some(monthlyIncome), age, currentYear)
            <= PensionFromProfile(c, p, pensionStartAge, averageMonthly, None, age, currentYear)
  {
    var m := PensionMonthsOf(c, p, currentYear);
    var basic := BasicPensionAmount(c, m.welfare + m.national + m.category3);
    ProfileWelfareNonNegative(c, p, averageMonthly, currentYear);
    var welfare := if HasEmployeePension(p.occupation)
                   then WelfarePensionAmount(c, StandardRemuneration(c, averageMonthly), m.welfareBefore2003, m.welfareAfter2003)
                   else 0.0;
    AdjustedPensionWorkingBelow(c, basic, welfare, AdjustmentRate(c, pensionStartAge), monthlyIncome, age);
  }

  // ---------------------------------------------------------------------------
  // The user's pension
  // ---------------------------------------------------------------------------

  /** Age in `year` when the profile's age is the age in the start year. */
  function AgeIn(info: BasicInfo, year: int): int
  {
    info.currentAge + (year - info.startYear)
  }

  function PensionStartAge(info: BasicInfo): int
  {
    OrDefault(info.pensionStartAge, 65)
  }

  /** The monthly salary in yen the earnings test sees in `year`: only when working on and paid that year. */
  function SalaryEarnings(info: BasicInfo, income: seq<IncomeItem>, year: int): (r: Option<real>)
    ensures !info.willWorkAfterPension ==> r.None?
    ensures r.Some? ==> r.value > 0.0
  {
    if !info.willWorkAfterPension then None
    else match FirstIncomeNamed(income, SalaryName)
      case None => None
      case Some(i) =>
        var salary := Get(income[i].amounts, year);
        if salary > 0.0 then Some(salary * 10000.0 / 12.0) else None
  }

  /** `calculatePensionForYear`: the user's public pension in `year`, in 万円. */
  ghost function PensionForYearSpec(c: PensionConstants, info: BasicInfo, income: seq<IncomeItem>, year: int, currentYear: int): real
    requires Valid(c)
  {
    var age := AgeIn(info, year);
    if age < PensionStartAge(info) then 0.0
    else
      var average := if HasEmployeePension(info.occupation) then AverageSalarySpec(info.occupation, income) else 0.0;
      PensionFromProfile(c, PensionProfile(info.currentAge, info.occupation, info.workStartAge, 60),
                         PensionStartAge(info), average, SalaryEarnings(info, income, year), age, currentYear)
  }

  method PensionForYear(c: PensionConstants, info: BasicInfo, income: seq<IncomeItem>, year: int, currentYear: int)
    returns (r: real)
    requires Valid(c)
    ensures r == PensionForYearSpec(c, info, income, year, currentYear)
    ensures AgeIn(info, year) < PensionStartAge(info) ==> r == 0.0
    ensures IsTenth(r)
  {
    var age := AgeIn(info, year);
    if age < PensionStartAge(info) {
      return 0.0;
    }
    var average := 0.0;
    if HasEmployeePension(info.occupation) {
      average := AverageSalary(info.occupation, income);
    }
    r := PensionFromProfile(c, PensionProfile(info.currentAge, info.occupation, info.workStartAge, 60),
                            PensionStartAge(info), average, SalaryEarnings(info, income, year), age, currentYear);
  }

  /** Continuing to work after the pension starts never raises the user's pension. */
  lemma PensionWorkingBelow(c: PensionConstants, info: BasicInfo, income: seq<IncomeItem>, year: int, currentYear: int)
    requires Valid(c) && NonNegative(c) && AdjustmentRate(c, PensionStartAge(info)) >= 0.0
    ensures PensionForYearSpec(c, info, income, year, currentYear)
            <= PensionForYearSpec(c, info.(willWorkAfterPension := false), income, year, currentYear)
  {
    var retired := info.(willWorkAfterPension := false);
    var age := AgeIn(info, year);
    if age >= PensionStartAge(info) {
      var earnings := SalaryEarnings(info, income, year);
      if earnings.Some? {
        var average := if HasEmployeePension(info.occupation) then AverageSalarySpec(info.occupation, income) else 0.0;
        ProfileWorkingBelow(c, PensionProfile(info.currentAge, info.occupation, info.workStartAge, 60),
                            PensionStartAge(info), average, earnings.value, age, currentYear);
      }
    }
  }

  // ---------------------------------------------------------------------------
  // The spouse's pension
  // ---------------------------------------------------------------------------

  /** The year of a planned marriage: the start year plus the years until the user's marriage age. */
  function MarriageYear(info: BasicInfo, s: SpouseInfo): int
  {
    info.startYear + (s.marriageAge - info.currentAge)
  }

  /**
   * The spouse's age in `year`, or None when there is no spouse that year:
   * single, details missing, or a planned marriage still ahead.
   */
  function SpouseAge(info: BasicInfo, year: int): (r: Option<int>)
    ensures r.Some? ==> info.spouseInfo.Some? && info.maritalStatus != Single
    ensures info.maritalStatus == Married && info.spouseInfo.Some? && info.spouseInfo.value.currentAge != 0
            ==> r == Some(info.spouseInfo.value.currentAge + (year - info.startYear))
    ensures info.maritalStatus == Planning && info.spouseInfo.Some? && year < MarriageYear(info, info.spouseInfo.value) ==> r.None?
  {
    if info.maritalStatus == Single || info.spouseInfo.None? then None
    else
      var s := info.spouseInfo.value;
      if info.maritalStatus == Married && s.currentAge != 0 then Some(s.currentAge + (year - info.startYear))
      else if info.maritalStatus == Planning && s.marriageAge != 0 && s.age != 0 then
        if year < MarriageYear(info, s) then None else Some(s.age + (year - MarriageYear(info, s)))
      else None
  }

  /**
   * The spouse's average monthly salary in yen, from the spouse income line
   * (gross amounts when kept): unrounded, and 250,000 yen when the line or
   * any positive year is missing.
   */
  ghost function SpouseAverageSpec(income: seq<IncomeItem>): real
  {
    match FirstIncomeNamed(income, SpouseIncomeName)
      case None => 25.0 * 10000.0
      case Some(i) =>
        var data := SalaryData(income[i]);
        if PositiveYears(data) > 0.0 then PositiveTotal(data) / PositiveYears(data) * 10000.0 / 12.0
        else 25.0 * 10000.0
  }

  method SpouseAverage(income: seq<IncomeItem>) returns (r: real)
    ensures r == SpouseAverageSpec(income)
  {
    var found := FirstIncomeNamed(income, SpouseIncomeName);
    if found.None? {
      return 25.0 * 10000.0;
    }
    var total, count := PositiveTotals(SalaryData(income[found.value]));
    if count > 0.0 {
      r := total / count * 10000.0 / 12.0;
    } else {
      r := 25.0 * 10000.0;
    }
  }

  function SpouseOccupation(s: SpouseInfo): Occupation
  {
    if s.occupation.Some? then s.occupation.value else Homemaker
  }

  /** The spouse's monthly salary in yen for the earnings test in `year`. */
  function SpouseEarnings(s: SpouseInfo, income: seq<IncomeItem>, year: int): (r: Option<real>)
    ensures !s.willWorkAfterPension ==> r.None?
    ensures r.Some? ==> r.value > 0.0
  {
    if !s.willWorkAfterPension then None
    else match FirstIncomeNamed(income, SpouseIncomeName)
      case None => None
      case Some(i) =>
        var salary := Get(income[i].amounts, year);
        if salary > 0.0 then Some(salary * 10000.0 / 12.0) else None
  }

  /**
   * `calculateSpousePensionForYear`: the spouse's pension in `year`, in 万円,
   * by the same formula with the spouse's occupation (homemaker when unset),
   * work start age, a work end age of 60 and pension start age.
   */
  ghost function SpousePensionForYearSpec(c: PensionConstants, info: BasicInfo, income: seq<IncomeItem>, year: int, currentYear: int): real
    requires Valid(c)
  {
    match SpouseAge(info, year)
      case None => 0.0
      case Some(spouseAge) =>
        var s := info.spouseInfo.value;
        var startAge := OrDefault(s.pensionStartAge, 65);
        if spouseAge < startAge then 0.0
        else
          var occupation := SpouseOccupation(s);
          var average := if HasEmployeePension(occupation) then SpouseAverageSpec(income) else 0.0;
          PensionFromProfile(c, PensionProfile(spouseAge - (year - info.startYear), occupation, OrDefault(s.workStartAge, 22), 60),
                             startAge, average, SpouseEarnings(s, income, year), spouseAge, currentYear)
  }

  method SpousePensionForYear(c: PensionConstants, info: BasicInfo, income: seq<IncomeItem>, year: int, currentYear: int)
    returns (r: real)
    requires Valid(c)
    ensures r == SpousePensionForYearSpec(c, info, income, year, currentYear)
    ensures info.maritalStatus == Single ==> r == 0.0
    ensures SpouseAge(info, year).Some? && SpouseAge(info, year).value < OrDefault(info.spouseInfo.value.pensionStartAge, 65) ==> r == 0.0
    ensures IsTenth(r)
  {
    var spouseAge := SpouseAge(info, year);
    if spouseAge.None? {
      return 0.0;
    }
    var s := info.spouseInfo.value;
    var startAge := OrDefault(s.pensionStartAge, 65);
    if spouseAge.value < startAge {
      return 0.0;
    }
    var occupation := SpouseOccupation(s);
    var average := 0.0;
    if HasEmployeePension(occupation) {
      average := SpouseAverage(income);
    }
    r := PensionFromProfile(c, PensionProfile(spouseAge.value - (year - info.startYear), occupation, OrDefault(s.workStartAge, 22), 60),
                            startAge, average, SpouseEarnings(s, income, year), spouseAge.value, currentYear);
  }

  /** A spouse the user marries later has no pension in the years before the marriage. */
  lemma SpousePensionBeforeMarriage(c: PensionConstants, info: BasicInfo, income: seq<IncomeItem>, year: int, currentYear: int)
    requires Valid(c) && info.maritalStatus == Planning && info.spouseInfo.Some?
    requires year < MarriageYear(info, info.spouseInfo.value)
    ensures SpousePensionForYearSpec(c, info, income, year, currentYear) == 0.0
  {
  }
}
