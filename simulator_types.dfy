/**
 * The records the life-plan simulator keeps: the user's profile, the
 * simulation parameters, the income / expense / asset / liability tables of
 * the personal and corporate books, life events and the per-year cash-flow
 * record. Amounts are in 万円 (units of 10,000 yen) unless a name says yen.
 *
 * An optional number or string of the source is modelled as 0 or "" when
 * absent: every use in the source reads it through `||`, truthiness or
 * `===` against a non-empty literal, where absent and 0 / "" behave alike.
 */
module SimulatorTypes {
  import opened Money

  datatype Occupation =
    | CompanyEmployee
    | PartTimeWithPension
    | PartTimeWithoutPension
    | SelfEmployed
    | Homemaker

  /** Occupations insured under the employees' pension (and hence social insurance). */
  predicate HasEmployeePension(o: Occupation)
  {
    o == CompanyEmployee || o == PartTimeWithPension
  }

  datatype Gender = Male | Female

  datatype MaritalStatus = Single | Married | Planning

  datatype RentInfo = RentInfo(
    monthlyRent: real,
    annualIncreaseRate: real,
    renewalFee: real,
    renewalInterval: real)

  datatype OwnInfo = OwnInfo(
    purchaseYear: int,
    purchasePrice: real,
    loanAmount: real,
    interestRate: real,
    loanTermYears: int,
    maintenanceCostRate: real)

  datatype HousingType = Rent | Own

  datatype HousingInfo = HousingInfo(kind: HousingType, rent: Option<RentInfo>, own: Option<OwnInfo>)

  datatype SpouseInfo = SpouseInfo(
    age: int,
    currentAge: int,
    marriageAge: int,
    occupation: Option<Occupation>,
    additionalExpense: real,
    workStartAge: int,
    pensionStartAge: int,
    willWorkAfterPension: bool)

  /** Chosen school type per stage, as the Japanese labels the forms offer. */
  datatype EducationPlan = EducationPlan(
    nursery: string,
    preschool: string,
    elementary: string,
    juniorHigh: string,
    highSchool: string,
    university: string)

  datatype Child = Child(currentAge: int, educationPlan: EducationPlan)

  datatype PlannedChild = PlannedChild(yearsFromNow: int, educationPlan: EducationPlan)

  datatype BasicInfo = BasicInfo(
    currentAge: int,
    startYear: int,
    deathAge: int,
    gender: Gender,
    monthlyLivingExpense: real,
    occupation: Occupation,
    maritalStatus: MaritalStatus,
    housingInfo: HousingInfo,
    spouseInfo: Option<SpouseInfo>,
    children: seq<Child>,
    plannedChildren: seq<PlannedChild>,
    workStartAge: int,
    pensionStartAge: int,
    willWorkAfterPension: bool)

  /** Rates in percent; `investmentRatio` and `maxInvestmentAmount` are optional (0 when absent). */
  datatype Parameters = Parameters(
    inflationRate: real,
    educationCostIncreaseRate: real,
    investmentReturn: real,
    investmentRatio: real,
    maxInvestmentAmount: real)

  /** An income line. `originalAmounts` keeps gross amounts where `amounts` holds take-home pay. */
  datatype IncomeItem = IncomeItem(
    id: string,
    name: string,
    kind: string,
    category: string,
    amounts: YearMap,
    originalAmounts: Option<YearMap>,
    investmentRatio: real,
    maxInvestmentAmount: real,
    isAutoCalculated: bool)

  /** An expense line. `rawAmounts` keeps the amounts as entered, before escalation. */
  datatype ExpenseItem = ExpenseItem(
    id: string,
    name: string,
    kind: string,
    category: string,
    amounts: YearMap,
    rawAmounts: Option<YearMap>)

  datatype AssetItem = AssetItem(
    id: string,
    name: string,
    kind: string,
    category: string,
    amounts: YearMap,
    isInvestment: bool)

  datatype RepaymentType = EqualPrincipal | EqualPayment

  /** A liability line; the loan fields are 0 / "" / None when the loan calculation is not set. */
  datatype LiabilityItem = LiabilityItem(
    id: string,
    name: string,
    kind: string,
    category: string,
    amounts: YearMap,
    interestRate: real,
    termYears: int,
    startYear: int,
    repaymentType: Option<RepaymentType>,
    autoCalculate: bool,
    originalAmount: real,
    isCalculated: bool,
    calculationHash: string)

  /** The two books every table is kept for. */
  datatype Book = Personal | Corporate

  datatype Sections<T> = Sections(personal: seq<T>, corporate: seq<T>)
  {
    function Of(b: Book): seq<T>
    {
      if b == Personal then personal else corporate
    }

    /** `{...data, [section]: items}`. */
    function With(b: Book, items: seq<T>): (r: Sections<T>)
      ensures r.Of(b) == items
      ensures forall o :: o != b ==> r.Of(o) == Of(o)
    {
      if b == Personal then Sections(items, corporate) else Sections(personal, items)
    }
  }

  datatype EventType = IncomeEvent | ExpenseEvent

  datatype EventSource = PersonalSource | CorporateSource | PersonalInvestmentSource | CorporateInvestmentSource

  datatype LifeEvent = LifeEvent(
    year: int,
    description: string,
    kind: EventType,
    category: string,
    amount: real,
    source: EventSource)

  /** One year of the projection (all amounts in 万円). */
  datatype CashFlowYear = CashFlowYear(
    mainIncome: real,
    sideIncome: real,
    spouseIncome: real,
    pensionIncome: real,
    spousePensionIncome: real,
    investmentIncome: real,
    livingExpense: real,
    housingExpense: real,
    educationExpense: real,
    otherExpense: real,
    loanRepayment: real,
    personalAssets: real,
    investmentAmount: real,
    totalInvestmentAssets: real,
    personalBalance: real,
    personalTotalAssets: real,
    personalLiabilityTotal: real,
    personalNetAssets: real,
    corporateIncome: real,
    corporateOtherIncome: real,
    corporateExpense: real,
    corporateOtherExpense: real,
    corporateLoanRepayment: real,
    corporateBalance: real,
    corporateTotalAssets: real,
    corporateLiabilityTotal: real,
    corporateNetAssets: real,
    corporateInvestmentAmount: real,
    corporateInvestmentIncome: real,
    corporateTotalInvestmentAssets: real)

  type CashFlowData = map<int, CashFlowYear>

  /** `items.find(i => i.name === name)`, as the index of the first match. */
  function FirstIncomeNamed(items: seq<IncomeItem>, name: string): (r: Option<nat>)
    ensures r.Some? ==> (r.value < |items| && items[r.value].name == name
                         && forall j :: 0 <= j < r.value ==> items[j].name != name)
    ensures r.None? ==> forall j :: 0 <= j < |items| ==> items[j].name != name
  {
    if items == [] then None
    else if items[0].name == name then Some(0)
    else match FirstIncomeNamed(items[1..], name)
      case None => None
      case Some(k) => Some(k + 1)
  }
}
