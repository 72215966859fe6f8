/**
 * `syncCashFlowFromFormData`: before the year loop, the automatic pension
 * lines of the personal income table are rewritten for every projected year
 * (the user's `年金収入` line, then the spouse's `配偶者年金収入` line unless
 * the user is single); then the cash flow is projected from the tables.
 */
module Sync {
  import opened Money
  import opened SimulatorTypes
  import opened PensionCalculations
  import opened Projection

  /** What the pass writes into the user's pension line for `year`: the calculator's value from the start age on, if automatic. */
  ghost function PensionValue(c: PensionConstants, info: BasicInfo, income: seq<IncomeItem>, auto: bool,
                              year: int, currentYear: int): real
    requires Valid(c)
  {
    if AgeIn(info, year) >= PensionStartAge(info) && auto then PensionForYearSpec(c, info, income, year, currentYear)
    else 0.0
  }

  ghost function PensionValues(c: PensionConstants, info: BasicInfo, income: seq<IncomeItem>, auto: bool, currentYear: int): int -> real
    requires Valid(c)
  {
    (year: int) => PensionValue(c, info, income, auto, year, currentYear)
  }

  /**
   * The spouse's age as the pass derives it: from the current age when
   * married, from the age at marriage when planning (None before the
   * marriage year), and 0 otherwise.
   */
  function PassSpouseAge(info: BasicInfo, year: int): Option<int>
  {
    if info.spouseInfo.Some? && info.maritalStatus == Married && info.spouseInfo.value.currentAge != 0 then
      Some(info.spouseInfo.value.currentAge + (year - info.startYear))
    else if info.spouseInfo.Some? && info.maritalStatus == Planning
            && info.spouseInfo.value.marriageAge != 0 && info.spouseInfo.value.age != 0 then
      var marriageYear := MarriageYear(info, info.spouseInfo.value);
      if year < marriageYear then None else Some(info.spouseInfo.value.age + (year - marriageYear))
    else Some(0)
  }

  function SpouseStartAge(info: BasicInfo): int
  {
    if info.spouseInfo.Some? then OrDefault(info.spouseInfo.value.pensionStartAge, 65) else 65
  }

  /** What the pass writes into the spouse's pension line for `year`. */
  ghost function SpousePensionValue(c: PensionConstants, info: BasicInfo, income: seq<IncomeItem>, auto: bool,
                                    year: int, currentYear: int): real
    requires Valid(c)
  {
    match PassSpouseAge(info, year)
      case None => 0.0
      case Some(spouseAge) =>
        if spouseAge >= SpouseStartAge(info) && auto then SpousePensionForYearSpec(c, info, income, year, currentYear)
        else 0.0
  }

  ghost function SpousePensionValues(c: PensionConstants, info: BasicInfo, income: seq<IncomeItem>, auto: bool,
                                     currentYear: int): int -> real
    requires Valid(c)
  {
    (year: int) => SpousePensionValue(c, info, income, auto, year, currentYear)
  }

  /** The first line called `name` with its projected years rewritten by `values`; the table is unchanged without one. */
  function RewriteLine(income: seq<IncomeItem>, name: string, info: BasicInfo, values: int -> real): (r: seq<IncomeItem>)
    ensures |r| == |income|
    ensures forall j :: 0 <= j < |r| ==> r[j].name == income[j].name
    ensures FirstIncomeNamed(income, name).None? ==> r == income
    ensures forall j :: 0 <= j < |r| && Some(j) != FirstIncomeNamed(income, name) ==> r[j] == income[j]
  {
    match FirstIncomeNamed(income, name)
      case None => income
      case Some(i) => income[i := income[i].(amounts := Override(income[i].amounts, info.startYear, YearCount(info), values))]
  }

  /** The user's pension line, computed from the table as it is before the pass. */
  ghost function WithPensionLine(c: PensionConstants, info: BasicInfo, income: seq<IncomeItem>, currentYear: int): seq<IncomeItem>
    requires Valid(c)
  {
    match FirstIncomeNamed(income, PensionName)
      case None => income
      case Some(i) => RewriteLine(income, PensionName, info, PensionValues(c, info, income, income[i].isAutoCalculated, currentYear))
  }

  /** The spouse's pension line, computed from the table after the user's line is written; untouched when single. */
  ghost function WithSpousePensionLine(c: PensionConstants, info: BasicInfo, income: seq<IncomeItem>, currentYear: int): seq<IncomeItem>
    requires Valid(c)
  {
    if info.maritalStatus == Single then income
    else match FirstIncomeNamed(income, SpousePensionName)
      case None => income
      case Some(i) =>
        RewriteLine(income, SpousePensionName, info, SpousePensionValues(c, info, income, income[i].isAutoCalculated, currentYear))
  }

  ghost function WithPensionLines(c: PensionConstants, info: BasicInfo, income: seq<IncomeItem>, currentYear: int): seq<IncomeItem>
    requires Valid(c)
  {
    WithSpousePensionLine(c, info, WithPensionLine(c, info, income, currentYear), currentYear)
  }

  // ---------------------------------------------------------------------------
  // Properties of the pass
  // ---------------------------------------------------------------------------

  /** The pass's own age check agrees with the calculator's: the line is the calculator's value when automatic, else 0. */
  lemma PensionValueIsCalculated(c: PensionConstants, info: BasicInfo, income: seq<IncomeItem>, auto: bool,
                                 year: int, currentYear: int)
    requires Valid(c)
    ensures PensionValue(c, info, income, auto, year, currentYear)
            == (if auto then PensionForYearSpec(c, info, income, year, currentYear) else 0.0)
  {
  }

  /** The same for the spouse: the pass's age derivation never disagrees with the spouse calculator's. */
  lemma SpousePensionValueIsCalculated(c: PensionConstants, info: BasicInfo, income: seq<IncomeItem>, auto: bool,
                                       year: int, currentYear: int)
    requires Valid(c)
    ensures SpousePensionValue(c, info, income, auto, year, currentYear)
            == (if auto then SpousePensionForYearSpec(c, info, income, year, currentYear) else 0.0)
  {
    var a := PassSpouseAge(info, year);
    if auto && info.maritalStatus != Single && info.spouseInfo.Some? {
      var s := info.spouseInfo.value;
      if info.maritalStatus == Married && s.currentAge != 0 {
        assert SpouseAge(info, year) == a;
      } else if info.maritalStatus == Planning && s.marriageAge != 0 && s.age != 0 {
        assert SpouseAge(info, year) == a;
      } else {
        assert SpouseAge(info, year).None?;
      }
    }
  }

  /** Before the start age, and in every year of a line that is not automatic, the user's pension line is 0. */
  lemma PensionLineZero(c: PensionConstants, info: BasicInfo, income: seq<IncomeItem>, currentYear: int, year: int)
    requires Valid(c) && InYears(info, year)
    requires FirstIncomeNamed(income, PensionName).Some?
    requires var i := FirstIncomeNamed(income, PensionName).value;
             AgeIn(info, year) < PensionStartAge(info) || !income[i].isAutoCalculated
    ensures var i := FirstIncomeNamed(income, PensionName).value;
            WithPensionLine(c, info, income, currentYear)[i].amounts[year] == 0.0
  {
    var i := FirstIncomeNamed(income, PensionName).value;
    assert PensionValues(c, info, income, income[i].isAutoCalculated, currentYear)(year) == 0.0;
  }

  /** The user's pension line holds the calculator's value in each projected year from the start age on. */
  lemma PensionLineCalculated(c: PensionConstants, info: BasicInfo, income: seq<IncomeItem>, currentYear: int, year: int)
    requires Valid(c) && InYears(info, year)
    requires FirstIncomeNamed(income, PensionName).Some?
    requires income[FirstIncomeNamed(income, PensionName).value].isAutoCalculated
    ensures var i := FirstIncomeNamed(income, PensionName).value;
            WithPensionLine(c, info, income, currentYear)[i].amounts[year] == PensionForYearSpec(c, info, income, year, currentYear)
  {
    PensionValueIsCalculated(c, info, income, true, year, currentYear);
    assert PensionValues(c, info, income, true, currentYear)(year) == PensionForYearSpec(c, info, income, year, currentYear);
  }

  /** Rewriting a line keeps every line's position, so the first line of any name stays where it was. */
  lemma {:induction false} FirstNamedAfterRewrite(items: seq<IncomeItem>, i: nat, amounts: YearMap, name: string)
    requires i < |items|
    ensures FirstIncomeNamed(items[i := items[i].(amounts := amounts)], name) == FirstIncomeNamed(items, name)
    decreases |items|
  {
    var updated := items[i := items[i].(amounts := amounts)];
    if items[0].name != name && i > 0 {
      FirstNamedAfterRewrite(items[1..], i - 1, amounts, name);
      assert updated[1..] == items[1..][i - 1 := items[1..][i - 1].(amounts := amounts)];
    } else if items[0].name != name {
      assert updated[1..] == items[1..];
    }
  }

  /** The user's pension reads only the salary line, so the line being written year by year does not change it. */
  lemma PensionReadsSalaryLine(c: PensionConstants, info: BasicInfo, income: seq<IncomeItem>, i: nat, amounts: YearMap,
                               year: int, currentYear: int)
    requires Valid(c) && i < |income| && income[i].name != SalaryName
    ensures PensionForYearSpec(c, info, income[i := income[i].(amounts := amounts)], year, currentYear)
            == PensionForYearSpec(c, info, income, year, currentYear)
  {
    FirstNamedAfterRewrite(income, i, amounts, SalaryName);
  }

  /** The spouse's pension reads only the spouse income line. */
  lemma SpousePensionReadsSpouseLine(c: PensionConstants, info: BasicInfo, income: seq<IncomeItem>, i: nat, amounts: YearMap,
                                     year: int, currentYear: int)
    requires Valid(c) && i < |income| && income[i].name != SpouseIncomeName
    ensures SpousePensionForYearSpec(c, info, income[i := income[i].(amounts := amounts)], year, currentYear)
            == SpousePensionForYearSpec(c, info, income, year, currentYear)
  {
    FirstNamedAfterRewrite(income, i, amounts, SpouseIncomeName);
  }

  // ---------------------------------------------------------------------------
  // The pass and the whole rebuild
  // ---------------------------------------------------------------------------

  /** One year of the user's pension line: the source's guard, then the calculator. */
  method PensionValueOf(c: PensionConstants, info: BasicInfo, income: seq<IncomeItem>, auto: bool, year: int, currentYear: int)
    returns (value: real)
    requires Valid(c)
    ensures value == PensionValues(c, info, income, auto, currentYear)(year)
  {
    value := 0.0;
    var age := info.currentAge + (year - info.startYear);
    if age >= PensionStartAge(info) && auto {
      value := PensionForYear(c, info, income, year, currentYear);
    }
  }

  /** One year of the spouse's pension line. */
  method SpousePensionValueOf(c: PensionConstants, info: BasicInfo, income: seq<IncomeItem>, auto: bool, year: int,
                              currentYear: int)
    returns (value: real)
    requires Valid(c)
    ensures value == SpousePensionValues(c, info, income, auto, currentYear)(year)
  {
    value := 0.0;
    var spouseAge := PassSpouseAge(info, year);
    if spouseAge.Some? && spouseAge.value >= SpouseStartAge(info) && auto {
      value := SpousePensionForYear(c, info, income, year, currentYear);
    }
  }

  /** One year of the user's pension line written over the years before it. */
  method WritePensionYear(c: PensionConstants, info: BasicInfo, income: seq<IncomeItem>, item: IncomeItem, currentYear: int,
                         k: nat, amounts: YearMap)
    returns (next: YearMap)
    requires Valid(c)
    requires amounts == Override(item.amounts, info.startYear, k,
                                 PensionValues(c, info, income, item.isAutoCalculated, currentYear))
    ensures next == Override(item.amounts, info.startYear, k + 1,
                             PensionValues(c, info, income, item.isAutoCalculated, currentYear))
  {
    var value := PensionValueOf(c, info, income, item.isAutoCalculated, info.startYear + k, currentYear);
    OverrideWrite(item.amounts, info.startYear, k, PensionValues(c, info, income, item.isAutoCalculated, currentYear),
                  amounts, value);
    next := amounts[info.startYear + k := value];
  }

  /** `years.forEach(year => ...)` over the user's pension line. */
  method PensionLineAmounts(c: PensionConstants, info: BasicInfo, income: seq<IncomeItem>, item: IncomeItem, currentYear: int)
    returns (amounts: YearMap)
    requires Valid(c)
    ensures amounts == Override(item.amounts, info.startYear, YearCount(info),
                                PensionValues(c, info, income, item.isAutoCalculated, currentYear))
  {
    amounts := item.amounts;
    for k := 0 to YearCount(info)
      invariant amounts == Override(item.amounts, info.startYear, k,
                                    PensionValues(c, info, income, item.isAutoCalculated, currentYear))
    {
      amounts := WritePensionYear(c, info, income, item, currentYear, k, amounts);
    }
  }

  /** One year of the spouse's pension line written over the years before it. */
  method WriteSpousePensionYear(c: PensionConstants, info: BasicInfo, income: seq<IncomeItem>, item: IncomeItem, currentYear: int,
                         k: nat, amounts: YearMap)
    returns (next: YearMap)
    requires Valid(c)
    requires amounts == Override(item.amounts, info.startYear, k,
                                 SpousePensionValues(c, info, income, item.isAutoCalculated, currentYear))
    ensures next == Override(item.amounts, info.startYear, k + 1,
                             SpousePensionValues(c, info, income, item.isAutoCalculated, currentYear))
  {
    var value := SpousePensionValueOf(c, info, income, item.isAutoCalculated, info.startYear + k, currentYear);
    OverrideWrite(item.amounts, info.startYear, k, SpousePensionValues(c, info, income, item.isAutoCalculated, currentYear),
                  amounts, value);
    next := amounts[info.startYear + k := value];
  }

  /** `years.forEach(year => ...)` over the spouse's pension line. */
  method SpousePensionLineAmounts(c: PensionConstants, info: BasicInfo, income: seq<IncomeItem>, item: IncomeItem, currentYear: int)
    returns (amounts: YearMap)
    requires Valid(c)
    ensures amounts == Override(item.amounts, info.startYear, YearCount(info),
                                SpousePensionValues(c, info, income, item.isAutoCalculated, currentYear))
  {
    amounts := item.amounts;
    for k := 0 to YearCount(info)
      invariant amounts == Override(item.amounts, info.startYear, k,
                                    SpousePensionValues(c, info, income, item.isAutoCalculated, currentYear))
    {
      amounts := WriteSpousePensionYear(c, info, income, item, currentYear, k, amounts);
    }
  }

  /** The pension pass over the personal income table. */
  method WritePensionLines(c: PensionConstants, info: BasicInfo, income: seq<IncomeItem>, currentYear: int)
    returns (result: seq<IncomeItem>)
    requires Valid(c)
    ensures result == WithPensionLines(c, info, income, currentYear)
  {
    result := income;
    var pension := FirstIncomeNamed(income, PensionName);
    if pension.Some? {
      var item := income[pension.value];
      var amounts := PensionLineAmounts(c, info, income, item, currentYear);
      result := income[pension.value := item.(amounts := amounts)];
    }
    assert result == WithPensionLine(c, info, income, currentYear);
    if info.maritalStatus != Single {
      var spouse := FirstIncomeNamed(result, SpousePensionName);
      if spouse.Some? {
        var item := result[spouse.value];
        var amounts := SpousePensionLineAmounts(c, info, result, item, currentYear);
        result := result[spouse.value := item.(amounts := amounts)];
      }
    }
  }

  /** The tables with the pension lines written. */
  ghost function Synced(c: PensionConstants, b: Books, currentYear: int): Books
    requires Valid(c)
  {
    b.(income := b.income.With(Personal, WithPensionLines(c, b.info, b.income.personal, currentYear)))
  }

  /**
   * `syncCashFlowFromFormData`: the income table with its pension lines
   * rewritten, and the cash flow projected from it.
   */
  method SyncCashFlow(c: PensionConstants, b: Books, currentYear: int) returns (income: Sections<IncomeItem>, cashFlow: CashFlowData)
    requires Valid(c)
    ensures income == Synced(c, b, currentYear).income
    ensures cashFlow == Projection.Projection(Synced(c, b, currentYear))
    ensures income.corporate == b.income.corporate && |income.personal| == |b.income.personal|
  {
    var personal := WritePensionLines(c, b.info, b.income.personal, currentYear);
    income := b.income.With(Personal, personal);
    cashFlow := ProjectCashFlow(b.(income := income));
  }
}
