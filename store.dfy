/**
 * The simulator's store: the profile, the parameters, the four tables, the
 * life events and the last projected cash flow, with the actions that
 * change them. Every table is a value the actions replace; the calendar
 * year the program runs in and the pension constants are fixed when the
 * store is made.
 */
module Store {
  import opened Money
  import opened SimulatorTypes
  import Calculations
  import Education
  import PensionCalculations
  import opened Escalation
  import Projection
  import Sync

  const LivingName: string := "生活費"
  const HousingName: string := "住居費"
  const EducationName: string := "教育費"
  const RealEstateName: string := "不動産"
  const LoanName: string := "ローン"

  // ---------------------------------------------------------------------------
  // Defaults
  // ---------------------------------------------------------------------------

  const DefaultRent: RentInfo := RentInfo(0.0, 0.0, 0.0, 2.0)

  function DefaultBasicInfo(nowYear: int): BasicInfo
  {
    BasicInfo(30, nowYear, 80, Male, 0.0, CompanyEmployee, Single, HousingInfo(Rent, Some(DefaultRent), None),
              None, [], [], 22, 65, false)
  }

  const DefaultParameters: Parameters := Parameters(1.0, 1.0, 1.0, 10.0, 100.0)

  function IncomeLine(id: string, name: string, kind: string, ratio: real, cap: real, auto: bool): IncomeItem
  {
    IncomeItem(id, name, kind, "income", map[], None, ratio, cap, auto)
  }

  function ExpenseLine(id: string, name: string, kind: string, category: string): ExpenseItem
  {
    ExpenseItem(id, name, kind, category, map[], None)
  }

  function AssetLine(id: string, name: string, kind: string, investment: bool): AssetItem
  {
    AssetItem(id, name, kind, "asset", map[], investment)
  }

  function LiabilityLine(id: string, name: string, kind: string, rate: real, term: int): LiabilityItem
  {
    LiabilityItem(id, name, kind, "liability", map[], rate, term, 0, None, false, 0.0, false, "")
  }

  const DefaultIncome: Sections<IncomeItem> := Sections(
    [IncomeLine("1", PensionCalculations.SalaryName, "income", 10.0, 100.0, false),
     IncomeLine("2", "事業収入", "profit", 10.0, 100.0, false),
     IncomeLine("3", Projection.SideIncomeName, "side", 10.0, 100.0, false),
     IncomeLine("4", Projection.PensionName, "income", 5.0, 50.0, true)],
    [IncomeLine("1", Projection.SalesName, "income", 10.0, 100.0, false),
     IncomeLine("2", Projection.OtherIncomeName, "income", 10.0, 100.0, false)])

  const DefaultExpenses: Sections<ExpenseItem> := Sections(
    [ExpenseLine("1", LivingName, "living", "living"),
     ExpenseLine("2", HousingName, "housing", "housing"),
     ExpenseLine("3", EducationName, "education", "education"),
     ExpenseLine("4", "その他", "other", "other")],
    [ExpenseLine("1", "人件費", "other", "business"),
     ExpenseLine("2", "外注費", "other", "business"),
     ExpenseLine("3", "家賃", "other", "office"),
     ExpenseLine("4", "設備費", "other", "office"),
     ExpenseLine("5", "その他", "other", "other")])

  const DefaultAssets: Sections<AssetItem> := Sections(
    [AssetLine("1", "現金・預金", "cash", false),
     AssetLine("2", "株式", "investment", true),
     AssetLine("3", "投資信託", "investment", true),
     AssetLine("4", RealEstateName, "property", false)],
    [AssetLine("1", "現金預金", "cash", false),
     AssetLine("2", "設備", "property", false),
     AssetLine("3", "在庫", "other", false)])

  const DefaultLiabilities: Sections<LiabilityItem> := Sections(
    [LiabilityLine("1", LoanName, "loan", 1.0, 35), LiabilityLine("2", "クレジット残高", "credit", 0.0, 0)],
    [LiabilityLine("1", "借入金", "loan", 2.0, 10), LiabilityLine("2", "未払金", "other", 0.0, 0)])

  /** The default corporate staff costs have type other and category business, so the projection counts them twice. */
  lemma DefaultStaffCostCountedTwice(info: BasicInfo, p: Parameters, year: int)
    ensures Projection.IsBusiness(DefaultExpenses.corporate[0]) && Projection.IsCorporateOther(DefaultExpenses.corporate[0])
  {
  }

  // ---------------------------------------------------------------------------
  // setParameters
  // ---------------------------------------------------------------------------

  /** A `Partial<Parameters>`: the fields the call passes. */
  datatype ParameterUpdate = ParameterUpdate(
    inflationRate: Option<real>,
    educationCostIncreaseRate: Option<real>,
    investmentReturn: Option<real>,
    investmentRatio: Option<real>,
    maxInvestmentAmount: Option<real>)

  function Pick(update: Option<real>, current: real): real
  {
    if update.Some? then update.value else current
  }

  /** `{...parameters, ...update}`. */
  function MergeParameters(p: Parameters, u: ParameterUpdate): (r: Parameters)
    ensures u.inflationRate.None? ==> r.inflationRate == p.inflationRate
    ensures u.educationCostIncreaseRate.None? ==> r.educationCostIncreaseRate == p.educationCostIncreaseRate
    ensures u.investmentReturn.None? ==> r.investmentReturn == p.investmentReturn
    ensures u.investmentRatio.None? ==> r.investmentRatio == p.investmentRatio
    ensures u.maxInvestmentAmount.None? ==> r.maxInvestmentAmount == p.maxInvestmentAmount
    ensures u.inflationRate.Some? ==> r.inflationRate == u.inflationRate.value
    ensures u.educationCostIncreaseRate.Some? ==> r.educationCostIncreaseRate == u.educationCostIncreaseRate.value
    ensures u.investmentReturn.Some? ==> r.investmentReturn == u.investmentReturn.value
    ensures u.investmentRatio.Some? ==> r.investmentRatio == u.investmentRatio.value
    ensures u.maxInvestmentAmount.Some? ==> r.maxInvestmentAmount == u.maxInvestmentAmount.value
  {
    Parameters(Pick(u.inflationRate, p.inflationRate), Pick(u.educationCostIncreaseRate, p.educationCostIncreaseRate),
               Pick(u.investmentReturn, p.investmentReturn), Pick(u.investmentRatio, p.investmentRatio),
               Pick(u.maxInvestmentAmount, p.maxInvestmentAmount))
  }

  /** Passing the same update again changes nothing more. */
  lemma MergeParametersIdempotent(p: Parameters, u: ParameterUpdate)
    ensures MergeParameters(MergeParameters(p, u), u) == MergeParameters(p, u)
  {
  }

  /** Every line of a table re-derived from its raw amounts. */
  function RederivedItems(items: seq<ExpenseItem>, p: Parameters, startYear: int): (r: seq<ExpenseItem>)
    ensures |r| == |items|
    ensures forall i :: 0 <= i < |items| ==> r[i] == Rederived(items[i], p, startYear)
  {
    if items == [] then []
    else RederivedItems(items[..|items| - 1], p, startYear) + [Rederived(items[|items| - 1], p, startYear)]
  }

  function RederivedExpenses(e: Sections<ExpenseItem>, p: Parameters, startYear: int): Sections<ExpenseItem>
  {
    Sections(RederivedItems(e.personal, p, startYear), RederivedItems(e.corporate, p, startYear))
  }

  /** Re-deriving the expense tables a second time under the same rates changes nothing. */
  lemma RederivedExpensesIdempotent(e: Sections<ExpenseItem>, p: Parameters, startYear: int)
    ensures RederivedExpenses(RederivedExpenses(e, p, startYear), p, startYear) == RederivedExpenses(e, p, startYear)
  {
    var once := RederivedExpenses(e, p, startYear);
    forall i | 0 <= i < |e.personal|
      ensures Rederived(once.personal[i], p, startYear) == once.personal[i]
    {
      RederivedIdempotent(e.personal[i], p, startYear);
    }
    forall i | 0 <= i < |e.corporate|
      ensures Rederived(once.corporate[i], p, startYear) == once.corporate[i]
    {
      RederivedIdempotent(e.corporate[i], p, startYear);
    }
  }

  /** `section.map(expense => ...)`: re-derives each line in turn. */
  method RederiveSection(items: seq<ExpenseItem>, p: Parameters, startYear: int) returns (r: seq<ExpenseItem>)
    ensures r == RederivedItems(items, p, startYear)
  {
    r := [];
    var i := 0;
    while i < |items|
      invariant 0 <= i <= |items|
      invariant r == RederivedItems(items[..i], p, startYear)
    {
      assert items[..i + 1][..i] == items[..i];
      var line := RederiveAmounts(items[i], p, startYear);
      r := r + [line];
      i := i + 1;
    }
    assert items[..i] == items;
  }

  // ---------------------------------------------------------------------------
  // initializeFormData
  // ---------------------------------------------------------------------------

  /** `parameters.investmentRatio || d`, `parameters.maxInvestmentAmount || d`. */
  function RatioOr(p: Parameters, d: real): real { OrDefaultReal(p.investmentRatio, d) }

  function CapOr(p: Parameters, d: real): real { OrDefaultReal(p.maxInvestmentAmount, d) }

  function InitialPersonalIncome(info: BasicInfo, p: Parameters): seq<IncomeItem>
  {
    var base := [IncomeLine("1", PensionCalculations.SalaryName, "income", RatioOr(p, 10.0), CapOr(p, 100.0), false),
                 IncomeLine("2", "事業収入", "profit", RatioOr(p, 10.0), CapOr(p, 100.0), false),
                 IncomeLine("3", Projection.SideIncomeName, "side", RatioOr(p, 10.0), CapOr(p, 100.0), false),
                 IncomeLine("4", Projection.PensionName, "income", RatioOr(p, 5.0), CapOr(p, 50.0), true)];
    var withSpousePension :=
      if info.maritalStatus != Single then base + [IncomeLine("5", Projection.SpousePensionName, "income", RatioOr(p, 5.0), CapOr(p, 50.0), true)]
      else base;
    if info.maritalStatus != Single && SpouseEarns(info) then
      withSpousePension + [IncomeLine(IntText(|withSpousePension| + 1), PensionCalculations.SpouseIncomeName, "income",
                                      RatioOr(p, 10.0), CapOr(p, 100.0), false)]
    else withSpousePension
  }

  /** A spouse with an occupation other than homemaker. */
  predicate SpouseEarns(info: BasicInfo)
  {
    info.spouseInfo.Some? && info.spouseInfo.value.occupation.Some? && info.spouseInfo.value.occupation.value != Homemaker
  }

  /** The income tables `initializeFormData` builds afresh. */
  function InitialIncome(info: BasicInfo, p: Parameters): Sections<IncomeItem>
  {
    Sections(InitialPersonalIncome(info, p),
             [IncomeLine("1", Projection.SalesName, "income", RatioOr(p, 10.0), CapOr(p, 100.0), false),
              IncomeLine("2", Projection.OtherIncomeName, "income", RatioOr(p, 10.0), CapOr(p, 100.0), false)])
  }

  /** The fresh income table has an automatic pension line as its fourth line, and every line starts empty. */
  lemma InitialPensionLine(info: BasicInfo, p: Parameters)
    ensures var personal := InitialIncome(info, p).personal;
            FirstIncomeNamed(personal, Projection.PensionName) == Some(3) && personal[3].isAutoCalculated
            && (forall i :: 0 <= i < |personal| ==> personal[i].amounts == map[])
  {
    var personal := InitialIncome(info, p).personal;
    assert personal[3].name == Projection.PensionName;
  }

  /** The fresh income table has the spouse's pension line exactly when the user is not single. */
  lemma InitialSpousePensionLine(info: BasicInfo, p: Parameters)
    ensures FirstIncomeNamed(InitialIncome(info, p).personal, Projection.SpousePensionName).Some? <==> info.maritalStatus != Single
  {
    var personal := InitialIncome(info, p).personal;
    if info.maritalStatus != Single {
      assert personal[4].name == Projection.SpousePensionName;
    }
  }

  /** The fresh income table has the spouse's income line exactly when a spouse with a paid occupation is expected. */
  lemma InitialSpouseIncomeLine(info: BasicInfo, p: Parameters)
    ensures FirstIncomeNamed(InitialIncome(info, p).personal, PensionCalculations.SpouseIncomeName).Some?
            <==> info.maritalStatus != Single && SpouseEarns(info)
  {
    var personal := InitialIncome(info, p).personal;
    if info.maritalStatus != Single && SpouseEarns(info) {
      assert personal[|personal| - 1].name == PensionCalculations.SpouseIncomeName;
    }
  }

  /** With an investment ratio set, every fresh income line invests that share of its income. */
  lemma InitialIncomeRatio(info: BasicInfo, p: Parameters)
    requires p.investmentRatio != 0.0
    ensures var income := InitialIncome(info, p);
            (forall i :: 0 <= i < |income.personal| ==> income.personal[i].investmentRatio == p.investmentRatio)
            && (forall i :: 0 <= i < |income.corporate| ==> income.corporate[i].investmentRatio == p.investmentRatio)
  {
  }

  function NamedExpense(name: string): ExpenseItem -> bool
  {
    (e: ExpenseItem) => e.name == name
  }

  function NamedAsset(name: string): AssetItem -> bool
  {
    (a: AssetItem) => a.name == name
  }

  function NamedLiability(name: string): LiabilityItem -> bool
  {
    (l: LiabilityItem) => l.name == name
  }

  /** The living cost of every year: twelve months of the monthly budget, escalated by inflation. */
  function LivingAmounts(info: BasicInfo, p: Parameters): int -> real
  {
    (y: int) => Escalated(info.monthlyLivingExpense * 12.0, InflationRate, p, y - info.startYear)
  }

  lemma LivingAmountsAt(info: BasicInfo, p: Parameters, y: int)
    ensures Constant(info.monthlyLivingExpense * 12.0)(y) == info.monthlyLivingExpense * 12.0
    ensures LivingAmounts(info, p)(y) == Escalated(Constant(info.monthlyLivingExpense * 12.0)(y), InflationRate, p, y - info.startYear)
    ensures LivingAmounts(info, p)(y) == Escalated(info.monthlyLivingExpense * 12.0, InflationRate, p, y - info.startYear)
  {
  }

  function HousingAmounts(info: BasicInfo, nowYear: int): int -> real
  {
    (y: int) => Calculations.HousingExpense(info.housingInfo, y, nowYear)
  }

  function EducationAmounts(info: BasicInfo, p: Parameters): int -> real
  {
    (y: int) => Education.EducationExpense(info.children, info.plannedChildren, y, info.startYear, p.educationCostIncreaseRate)
  }

  /** A line with the first `n` years from `start` written: `amounts` from `values`, raw amounts from `raw`. */
  function Filled(item: ExpenseItem, start: int, n: nat, values: int -> real, raw: int -> real): (r: ExpenseItem)
    ensures r.name == item.name
  {
    item.(rawAmounts := Some(Override(OrEmpty(item.rawAmounts), start, n, raw)), amounts := Override(item.amounts, start, n, values))
  }

  /** The first line called `name`, filled; the table is unchanged without one. */
  function FillLine(items: seq<ExpenseItem>, name: string, start: int, n: nat, values: int -> real, raw: int -> real): (r: seq<ExpenseItem>)
    ensures |r| == |items| && forall i :: 0 <= i < |r| ==> r[i].name == items[i].name
  {
    match FirstWhere(items, NamedExpense(name))
      case None => items
      case Some(i) => items[i := Filled(items[i], start, n, values, raw)]
  }

  /** The education line is also given the education category and type, once a year is written. */
  function MarkEducation(items: seq<ExpenseItem>, n: nat): (r: seq<ExpenseItem>)
    ensures |r| == |items| && forall i :: 0 <= i < |r| ==> r[i].name == items[i].name
  {
    match FirstWhere(items, NamedExpense(EducationName))
      case None => items
      case Some(i) => if n > 0 then items[i := items[i].(category := "education", kind := "education")] else items
  }

  /**
   * The years loop of `initializeFormData` on the personal expense table:
   * the living, housing and education lines written for `n` years from
   * `start`, each from its own yearly values.
   */
  function FilledLines(items: seq<ExpenseItem>, start: int, n: nat, living: int -> real, livingRaw: int -> real,
                       housing: int -> real, education: int -> real): seq<ExpenseItem>
  {
    var withLiving := FillLine(items, LivingName, start, n, living, livingRaw);
    var withHousing := FillLine(withLiving, HousingName, start, n, housing, housing);
    FillLine(MarkEducation(withHousing, n), EducationName, start, n, education, education)
  }

  /** The expense tables `initializeFormData` leaves: the personal table filled, the corporate one untouched. */
  function InitialExpenses(info: BasicInfo, p: Parameters, nowYear: int, e: Sections<ExpenseItem>): Sections<ExpenseItem>
  {
    e.With(Personal, FilledLines(e.personal, info.startYear, Projection.YearCount(info), LivingAmounts(info, p),
                                 Constant(info.monthlyLivingExpense * 12.0), HousingAmounts(info, nowYear), EducationAmounts(info, p)))
  }

  /** The asset tables with the home's price entered in the purchase year. */
  function InitialAssets(info: BasicInfo, a: Sections<AssetItem>): Sections<AssetItem>
  {
    if info.housingInfo.kind == Own && info.housingInfo.own.Some? then
      match FirstWhere(a.personal, NamedAsset(RealEstateName))
        case None => a
        case Some(i) =>
          var own := info.housingInfo.own.value;
          a.With(Personal, a.personal[i := a.personal[i].(amounts := a.personal[i].amounts[own.purchaseYear := own.purchasePrice])])
    else a
  }

  /** The liability tables with the mortgage entered in the purchase year. */
  function InitialLiabilities(info: BasicInfo, l: Sections<LiabilityItem>): Sections<LiabilityItem>
  {
    if info.housingInfo.kind == Own && info.housingInfo.own.Some? then
      match FirstWhere(l.personal, NamedLiability(LoanName))
        case None => l
        case Some(i) =>
          var own := info.housingInfo.own.value;
          l.With(Personal, l.personal[i := l.personal[i].(amounts := l.personal[i].amounts[own.purchaseYear := own.loanAmount])])
    else l
  }

  /** The first line of `name` is the one filled. */
  lemma FillLineAt(items: seq<ExpenseItem>, name: string, start: int, n: nat, values: int -> real, raw: int -> real, i: nat)
    requires FirstWhere(items, NamedExpense(name)) == Some(i)
    ensures FillLine(items, name, start, n, values, raw)[i] == Filled(items[i], start, n, values, raw)
  {
  }

  /** A line of another name is left alone. */
  lemma FillLineElsewhere(items: seq<ExpenseItem>, name: string, start: int, n: nat, values: int -> real, raw: int -> real, i: nat)
    requires i < |items| && items[i].name != name
    ensures FillLine(items, name, start, n, values, raw)[i] == items[i]
  {
    var found := FirstWhere(items, NamedExpense(name));
    if found.Some? {
      assert NamedExpense(name)(items[found.value]);
    }
  }

  lemma MarkEducationElsewhere(items: seq<ExpenseItem>, n: nat, i: nat)
    requires i < |items| && items[i].name != EducationName
    ensures MarkEducation(items, n)[i] == items[i]
  {
    var found := FirstWhere(items, NamedExpense(EducationName));
    if found.Some? {
      assert NamedExpense(EducationName)(items[found.value]);
    }
  }

  /** The living line, filled. */
  lemma FilledLivingLine(items: seq<ExpenseItem>, start: int, n: nat, living: int -> real, livingRaw: int -> real,
                         housing: int -> real, education: int -> real, i: nat)
    requires FirstWhere(items, NamedExpense(LivingName)) == Some(i)
    ensures FilledLines(items, start, n, living, livingRaw, housing, education)[i] == Filled(items[i], start, n, living, livingRaw)
  {
    var withLiving := FillLine(items, LivingName, start, n, living, livingRaw);
    FillLineAt(items, LivingName, start, n, living, livingRaw, i);
    var withHousing := FillLine(withLiving, HousingName, start, n, housing, housing);
    FillLineElsewhere(withLiving, HousingName, start, n, housing, housing, i);
    var marked := MarkEducation(withHousing, n);
    MarkEducationElsewhere(withHousing, n, i);
    FillLineElsewhere(marked, EducationName, start, n, education, education, i);
  }

  /** A filled year holds the filled value and raw amount, and re-deriving escalates the raw amount by the line's rate. */
  lemma FilledRederived(item: ExpenseItem, start: int, n: nat, values: int -> real, raw: int -> real, p: Parameters, y: int)
    requires start <= y < start + n
    ensures var line := Filled(item, start, n, values, raw);
            line.category == item.category && line.kind == item.kind && RawYear(line, values(y), raw(y), p, start, y)
  {
    FilledAt(item, start, n, values, raw, y);
    RawYearOf(Filled(item, start, n, values, raw), p, start, y);
  }

  /** A filled year holds the filled amount and the filled raw amount. */
  lemma FilledAt(item: ExpenseItem, start: int, n: nat, values: int -> real, raw: int -> real, y: int)
    requires start <= y < start + n
    ensures var line := Filled(item, start, n, values, raw);
            y in line.amounts && line.amounts[y] == values(y)
            && line.rawAmounts.Some? && y in line.rawAmounts.value && line.rawAmounts.value[y] == raw(y)
  {
  }

  /**
   * After `initializeFormData` the living line holds the escalated budget in
   * every projected year, with the unescalated budget as its raw amount, so
   * re-deriving it under the same rates gives the same amounts.
   */
  lemma InitialLivingLine(info: BasicInfo, p: Parameters, nowYear: int, items: seq<ExpenseItem>, i: nat, y: int)
    requires Projection.InYears(info, y)
    requires FirstWhere(items, NamedExpense(LivingName)) == Some(i)
    requires RateFor(items[i].category, items[i].kind) == InflationRate
    ensures var line := FilledLines(items, info.startYear, Projection.YearCount(info), LivingAmounts(info, p),
                                    Constant(info.monthlyLivingExpense * 12.0), HousingAmounts(info, nowYear), EducationAmounts(info, p))[i];
            var budget := info.monthlyLivingExpense * 12.0;
            var amount := Escalated(budget, InflationRate, p, y - info.startYear);
            RateFor(line.category, line.kind) == InflationRate && RawYear(line, amount, budget, p, info.startYear, y)
  {
    var n := Projection.YearCount(info);
    LivingAmountsAt(info, p, y);
    FilledLivingLine(items, info.startYear, n, LivingAmounts(info, p), Constant(info.monthlyLivingExpense * 12.0),
                     HousingAmounts(info, nowYear), EducationAmounts(info, p), i);
    FilledRederived(items[i], info.startYear, n, LivingAmounts(info, p), Constant(info.monthlyLivingExpense * 12.0), p, y);
  }

  /** The education line, marked and filled. */
  lemma FilledEducationLine(items: seq<ExpenseItem>, start: int, n: nat, living: int -> real, livingRaw: int -> real,
                            housing: int -> real, education: int -> real, i: nat)
    requires FirstWhere(items, NamedExpense(EducationName)) == Some(i)
    ensures FilledLines(items, start, n, living, livingRaw, housing, education)[i]
            == Filled(MarkEducation(items, n)[i], start, n, education, education)
  {
    var withLiving := FillLine(items, LivingName, start, n, living, livingRaw);
    FillLineElsewhere(items, LivingName, start, n, living, livingRaw, i);
    FirstWhereSameNames(items, withLiving, EducationName);
    var withHousing := FillLine(withLiving, HousingName, start, n, housing, housing);
    FillLineElsewhere(withLiving, HousingName, start, n, housing, housing, i);
    FirstWhereSameNames(withLiving, withHousing, EducationName);
    var marked := MarkEducation(withHousing, n);
    FirstWhereSameNames(withHousing, marked, EducationName);
    FillLineAt(marked, EducationName, start, n, education, education, i);
    assert marked[i] == MarkEducation(items, n)[i];
  }

  /**
   * The education line's raw amounts are the escalated education costs, so
   * `setParameters` escalates them once more: a re-derived education line
   * holds the cost escalated twice.
   */
  lemma InitialEducationLineEscalatedTwice(info: BasicInfo, p: Parameters, nowYear: int, items: seq<ExpenseItem>, i: nat, y: int)
    requires Projection.InYears(info, y)
    requires FirstWhere(items, NamedExpense(EducationName)) == Some(i)
    ensures var line := FilledLines(items, info.startYear, Projection.YearCount(info), LivingAmounts(info, p),
                                    Constant(info.monthlyLivingExpense * 12.0), HousingAmounts(info, nowYear), EducationAmounts(info, p))[i];
            var cost := EducationAmounts(info, p)(y);
            line.category == "education" && line.kind == "education" && RateFor(line.category, line.kind) == EducationRate
            && RawYear(line, cost, cost, p, info.startYear, y)
  {
    var n := Projection.YearCount(info);
    FilledEducationLine(items, info.startYear, n, LivingAmounts(info, p), Constant(info.monthlyLivingExpense * 12.0),
                        HousingAmounts(info, nowYear), EducationAmounts(info, p), i);
    var marked := MarkEducation(items, n)[i];
    assert marked.category == "education" && marked.kind == "education";
    FilledRederived(marked, info.startYear, n, EducationAmounts(info, p), EducationAmounts(info, p), p, y);
  }

  /** Two tables whose lines have the same names in the same order find the same first line of a name. */
  lemma {:induction false} FirstWhereSameNames(xs: seq<ExpenseItem>, ys: seq<ExpenseItem>, name: string)
    requires |xs| == |ys| && forall i :: 0 <= i < |xs| ==> xs[i].name == ys[i].name
    ensures FirstWhere(ys, NamedExpense(name)) == FirstWhere(xs, NamedExpense(name))
    decreases |xs|
  {
    if xs != [] && xs[0].name != name {
      FirstWhereSameNames(xs[1..], ys[1..], name);
    }
  }

  /** The years loop of `initializeFormData` for one line: its amounts and raw amounts written year by year. */
  method FillExpenseLine(items: seq<ExpenseItem>, name: string, start: int, n: nat, values: int -> real, raw: int -> real)
    returns (r: seq<ExpenseItem>)
    ensures r == FillLine(items, name, start, n, values, raw)
  {
    r := items;
    var found := FirstWhere(items, NamedExpense(name));
    if found.Some? {
      var item := items[found.value];
      var amounts := FillYears(item.amounts, start, n, values);
      var rawAmounts := FillYears(OrEmpty(item.rawAmounts), start, n, raw);
      r := items[found.value := item.(rawAmounts := Some(rawAmounts), amounts := amounts)];
    }
  }

  method MarkEducationLine(items: seq<ExpenseItem>, n: nat) returns (r: seq<ExpenseItem>)
    ensures r == MarkEducation(items, n)
  {
    r := items;
    var education := FirstWhere(items, NamedExpense(EducationName));
    if education.Some? && n > 0 {
      r := items[education.value := items[education.value].(category := "education", kind := "education")];
    }
  }

  method FillLines(items: seq<ExpenseItem>, start: int, n: nat, living: int -> real, livingRaw: int -> real,
                   housing: int -> real, education: int -> real) returns (r: seq<ExpenseItem>)
    ensures r == FilledLines(items, start, n, living, livingRaw, housing, education)
  {
    r := FillExpenseLine(items, LivingName, start, n, living, livingRaw);
    r := FillExpenseLine(r, HousingName, start, n, housing, housing);
    r := MarkEducationLine(r, n);
    r := FillExpenseLine(r, EducationName, start, n, education, education);
  }

  /** The expense part of `initializeFormData`: the personal table's lines filled, the corporate table untouched. */
  method InitializeExpenses(e: Sections<ExpenseItem>, start: int, n: nat, living: int -> real, livingRaw: int -> real,
                            housing: int -> real, education: int -> real) returns (r: Sections<ExpenseItem>)
    ensures r == e.With(Personal, FilledLines(e.personal, start, n, living, livingRaw, housing, education))
  {
    var personal := FillLines(e.personal, start, n, living, livingRaw, housing, education);
    r := e.With(Personal, personal);
  }

  // ---------------------------------------------------------------------------
  // The store
  // ---------------------------------------------------------------------------

  class Simulator {
    /** The calendar year the program runs in. */
    const nowYear: int
    const pension: PensionCalculations.PensionConstants

    var basicInfo: BasicInfo
    var parameters: Parameters
    var incomeData: Sections<IncomeItem>
    var expenseData: Sections<ExpenseItem>
    var assetData: Sections<AssetItem>
    var liabilityData: Sections<LiabilityItem>
    var lifeEvents: seq<LifeEvent>
    var cashFlow: CashFlowData

    /** The store as created: the default profile and tables, no events and no cash flow yet. */
    constructor(nowYear: int, pension: PensionCalculations.PensionConstants)
      requires PensionCalculations.Valid(pension)
      ensures this.nowYear == nowYear && this.pension == pension
      ensures basicInfo == DefaultBasicInfo(nowYear) && parameters == DefaultParameters
      ensures incomeData == DefaultIncome && expenseData == DefaultExpenses
      ensures assetData == DefaultAssets && liabilityData == DefaultLiabilities
      ensures lifeEvents == [] && cashFlow == map[]
    {
      this.nowYear := nowYear;
      this.pension := pension;
      basicInfo := DefaultBasicInfo(nowYear);
      parameters := DefaultParameters;
      incomeData := DefaultIncome;
      expenseData := DefaultExpenses;
      assetData := DefaultAssets;
      liabilityData := DefaultLiabilities;
      lifeEvents := [];
      cashFlow := map[];
    }

    /** The tables the projection reads. */
    function Tables(): Projection.Books
      reads this
    {
      Projection.Books(basicInfo, parameters, incomeData, expenseData, assetData, liabilityData, lifeEvents)
    }

    /**
     * The income tables and the cash flow are what synchronising the current
     * tables gives when the income tables were `income` before.
     */
    ghost predicate SyncedFrom(income: Sections<IncomeItem>)
      requires PensionCalculations.Valid(pension)
      reads this
    {
      var synced := Sync.Synced(pension, Tables().(income := income), nowYear);
      incomeData == synced.income && cashFlow == Projection.Projection(synced)
    }

    /** `addLifeEvent`: the event goes to the end of the list. */
    method AddLifeEvent(e: LifeEvent)
      modifies this`lifeEvents
      ensures lifeEvents == old(lifeEvents) + [e]
    {
      lifeEvents := lifeEvents + [e];
    }

    /** `removeLifeEvent`: the event at `index` is dropped, the rest keep their order. */
    method RemoveLifeEvent(index: int)
      modifies this`lifeEvents
      ensures lifeEvents == RemoveAt(old(lifeEvents), index)
    {
      lifeEvents := RemoveAt(lifeEvents, index);
    }

    /** `syncCashFlowFromFormData`: rewrites the pension lines and projects the cash flow. */
    method SyncCashFlow()
      requires PensionCalculations.Valid(pension)
      modifies this`incomeData, this`cashFlow
      ensures SyncedFrom(old(incomeData))
    {
      incomeData, cashFlow := Sync.SyncCashFlow(pension, Tables(), nowYear);
    }

    /**
     * `setParameters`: merges the update, re-derives every expense line from
     * its raw amounts under the new rates, then rebuilds the cash flow.
     */
    method SetParameters(u: ParameterUpdate)
      requires PensionCalculations.Valid(pension)
      modifies this`parameters, this`expenseData, this`incomeData, this`cashFlow
      ensures parameters == MergeParameters(old(parameters), u)
      ensures expenseData == RederivedExpenses(old(expenseData), parameters, basicInfo.startYear)
      ensures SyncedFrom(old(incomeData))
    {
      parameters := MergeParameters(parameters, u);
      var personal := RederiveSection(expenseData.personal, parameters, basicInfo.startYear);
      var corporate := RederiveSection(expenseData.corporate, parameters, basicInfo.startYear);
      expenseData := Sections(personal, corporate);
      SyncCashFlow();
    }

    /**
     * `initializeFormData`: fresh income tables, the living, housing and
     * education lines written for every projected year, and the home's
     * price and mortgage entered in the purchase year.
     */
    method InitializeFormData()
      modifies this`incomeData, this`expenseData, this`assetData, this`liabilityData
      ensures incomeData == InitialIncome(basicInfo, parameters)
      ensures expenseData == InitialExpenses(basicInfo, parameters, nowYear, old(expenseData))
      ensures assetData == InitialAssets(basicInfo, old(assetData))
      ensures liabilityData == InitialLiabilities(basicInfo, old(liabilityData))
    {
      incomeData := InitialIncome(basicInfo, parameters);
      InitializeExpenseData();
      assetData := InitialAssets(basicInfo, assetData);
      liabilityData := InitialLiabilities(basicInfo, liabilityData);
    }

    /** The expense part of `initializeFormData`. */
    method InitializeExpenseData()
      modifies this`expenseData
      ensures expenseData == InitialExpenses(basicInfo, parameters, nowYear, old(expenseData))
    {
      var info, p, e := basicInfo, parameters, expenseData;
      var r := InitializeExpenses(e, info.startYear, Projection.YearCount(info), LivingAmounts(info, p),
                                  Constant(info.monthlyLivingExpense * 12.0), HousingAmounts(info, nowYear), EducationAmounts(info, p));
      expenseData := r;
    }

    /** `setBasicInfo`: the new profile, fresh form data, and a rebuilt cash flow. */
    method SetBasicInfo(info: BasicInfo)
      requires PensionCalculations.Valid(pension)
      modifies this`basicInfo, this`incomeData, this`expenseData, this`assetData, this`liabilityData, this`cashFlow
      ensures basicInfo == info
      ensures expenseData == InitialExpenses(info, parameters, nowYear, old(expenseData))
      ensures assetData == InitialAssets(info, old(assetData)) && liabilityData == InitialLiabilities(info, old(liabilityData))
      ensures SyncedFrom(InitialIncome(info, parameters))
    {
      basicInfo := info;
      InitializeFormData();
      SyncCashFlow();
    }
  }
}
