/**
 * The yearly cash-flow projection the store rebuilds from its tables.
 *
 * The rebuild first writes the user's and the spouse's pension lines for
 * every year of the projection, then folds over the years from the start
 * year to the year of the expected death, carrying the running total assets
 * of both books and the investment pools, and records one `CashFlowYear` per
 * year. Amounts are in 万円.
 */
module Projection {
  import opened Money
  import opened SimulatorTypes
  import opened PensionCalculations
  import Loans

  const PensionName: string := "年金収入"
  const SpousePensionName: string := "配偶者年金収入"
  const SideIncomeName: string := "副業収入"
  const SalesName: string := "売上"
  const OtherIncomeName: string := "その他収入"

  /** The tables the projection reads. */
  datatype Books = Books(
    info: BasicInfo,
    params: Parameters,
    income: Sections<IncomeItem>,
    expenses: Sections<ExpenseItem>,
    assets: Sections<AssetItem>,
    liabilities: Sections<LiabilityItem>,
    events: seq<LifeEvent>)

  /** The number of projected years, `deathAge - currentAge + 1` (none when that is not positive). */
  function YearCount(info: BasicInfo): nat
  {
    if info.deathAge - info.currentAge + 1 > 0 then info.deathAge - info.currentAge + 1 else 0
  }

  /** The last projected year. */
  function LastYear(info: BasicInfo): int
  {
    info.startYear + (info.deathAge - info.currentAge)
  }

  predicate InYears(info: BasicInfo, year: int)
  {
    info.startYear <= year < info.startYear + YearCount(info)
  }

  /** The number of projected years up to the year the user reaches `endAge`: the years the autofill of the income and expense forms fills. */
  function FilledCount(info: BasicInfo, endAge: int): (r: nat)
    ensures r <= YearCount(info)
    ensures endAge < info.currentAge ==> r == 0
    ensures forall y :: info.startYear <= y < info.startYear + r <==>
                          InYears(info, y) && y <= info.startYear + (endAge - info.currentAge)
  {
    MinInt(YearCount(info), MaxInt(0, endAge - info.currentAge + 1))
  }

  // ---------------------------------------------------------------------------
  // Lines, buckets and sums of one year
  // ---------------------------------------------------------------------------

  /** `items.find(i => i.name === name)?.amounts[year] || 0`. */
  function LineAmount(items: seq<IncomeItem>, name: string, year: int): (r: real)
    ensures FirstIncomeNamed(items, name).None? ==> r == 0.0
  {
    match FirstIncomeNamed(items, name)
      case None => 0.0
      case Some(i) => Get(items[i].amounts, year)
  }

  predicate IsLiving(e: ExpenseItem) { e.kind == "living" || e.category == "living" }
  predicate IsHousing(e: ExpenseItem) { e.kind == "housing" || e.category == "housing" }
  predicate IsEducation(e: ExpenseItem) { e.kind == "education" || e.category == "education" }
  /** Personal "other" expenses: type or category other, and neither of them education. */
  predicate IsOtherPersonal(e: ExpenseItem)
  {
    (e.kind == "other" || e.category == "other") && e.kind != "education" && e.category != "education"
  }
  predicate IsBusiness(e: ExpenseItem) { e.category == "business" || e.kind == "business" }
  /** Corporate "other" expenses: type or category other or office. Tested independently of `IsBusiness`. */
  predicate IsCorporateOther(e: ExpenseItem)
  {
    (e.category == "other" || e.kind == "other") || (e.category == "office" || e.kind == "office")
  }

  /** The amount an expense line adds to a bucket in `year`. */
  function ExpenseIn(bucket: ExpenseItem -> bool, year: int): ExpenseItem -> real
  {
    (e: ExpenseItem) => if bucket(e) then Get(e.amounts, year) else 0.0
  }

  function AssetAt(year: int): AssetItem -> real
  {
    (a: AssetItem) => Abs(Get(a.amounts, year))
  }

  function InvestmentAssetAt(year: int): AssetItem -> real
  {
    (a: AssetItem) => if a.isInvestment then Abs(Get(a.amounts, year)) else 0.0
  }

  function LiabilityAt(year: int): LiabilityItem -> real
  {
    (l: LiabilityItem) => Abs(Get(l.amounts, year))
  }

  function Portion(amount: real, ratio: real): real
  {
    amount * (ratio / 100.0)
  }

  /**
   * What an income line puts into the investment pool in `year`: its
   * investment ratio of a positive amount, capped by its maximum; a maximum
   * of 0 means no cap.
   */
  function Invested(item: IncomeItem, year: int): (r: real)
    ensures !(Get(item.amounts, year) > 0.0 && item.investmentRatio > 0.0) ==> r == 0.0
    ensures item.maxInvestmentAmount >= 0.0 ==> r >= 0.0
    ensures item.maxInvestmentAmount > 0.0 ==> r <= item.maxInvestmentAmount
    ensures item.maxInvestmentAmount == 0.0 ==> r == (if Get(item.amounts, year) > 0.0 && item.investmentRatio > 0.0
                                                      then Portion(Get(item.amounts, year), item.investmentRatio) else 0.0)
  {
    var amount := Get(item.amounts, year);
    if amount > 0.0 && item.investmentRatio > 0.0 then
      MulNonNegative(amount, item.investmentRatio / 100.0);
      if item.maxInvestmentAmount != 0.0 then Min(Portion(amount, item.investmentRatio), item.maxInvestmentAmount)
      else Portion(amount, item.investmentRatio)
    else 0.0
  }

  function InvestedAt(year: int): IncomeItem -> real
  {
    (i: IncomeItem) => Invested(i, year)
  }

  /** The amount a life event adds to the (year, source, type) bucket. */
  function EventAt(year: int, source: EventSource, kind: EventType): LifeEvent -> real
  {
    (e: LifeEvent) => if e.year == year && e.source == source && e.kind == kind then e.amount else 0.0
  }

  function EventTotal(events: seq<LifeEvent>, year: int, source: EventSource, kind: EventType): real
  {
    SumOf(events, EventAt(year, source, kind))
  }

  /** An appended event changes only its own bucket, by its amount. */
  lemma EventTotalAppend(events: seq<LifeEvent>, e: LifeEvent, year: int, source: EventSource, kind: EventType)
    ensures EventTotal(events + [e], year, source, kind)
            == EventTotal(events, year, source, kind) + (if e.year == year && e.source == source && e.kind == kind then e.amount else 0.0)
  {
    SumOfAppend(events, [e], EventAt(year, source, kind));
    assert [e][..0] == [];
  }

  /** `processLifeEvents`: one pass that totals the year's income and expense events of a source. */
  method ProcessLifeEvents(events: seq<LifeEvent>, year: int, source: EventSource) returns (income: real, expense: real)
    ensures income == EventTotal(events, year, source, IncomeEvent)
    ensures expense == EventTotal(events, year, source, ExpenseEvent)
  {
    income, expense := 0.0, 0.0;
    var i := 0;
    while i < |events|
      invariant 0 <= i <= |events|
      invariant income == SumOf(events[..i], EventAt(year, source, IncomeEvent))
      invariant expense == SumOf(events[..i], EventAt(year, source, ExpenseEvent))
    {
      var e := events[i];
      assert events[..i + 1][..i] == events[..i] && events[..i + 1][i] == e;
      if e.year == year && e.source == source {
        if e.kind == IncomeEvent {
          income := income + e.amount;
        } else if e.kind == ExpenseEvent {
          expense := expense + e.amount;
        }
      }
      i := i + 1;
    }
    assert events[..i] == events;
  }

  // ---------------------------------------------------------------------------
  // The figures of one year
  // ---------------------------------------------------------------------------

  /** Everything a year's record takes from the tables; the investment pools come from the carry. */
  datatype YearTotals = YearTotals(
    salary: real, sideIncome: real, spouseIncome: real, pension: real, spousePension: real,
    living: real, housing: real, education: real, otherExpense: real, repayment: real,
    eventIncome: real, eventExpense: real, invested: real, investmentEvents: real, liabilities: real,
    sales: real, otherIncome: real, business: real, corporateOther: real, corporateRepayment: real,
    corporateEventIncome: real, corporateEventExpense: real, corporateInvested: real,
    corporateInvestmentEvents: real, corporateLiabilities: real)

  /** The net amount investment events of `source` move into the pool in `year`. */
  function InvestmentEvents(events: seq<LifeEvent>, year: int, source: EventSource): real
  {
    EventTotal(events, year, source, IncomeEvent) - EventTotal(events, year, source, ExpenseEvent)
  }

  /** The year's lines, buckets, repayments, events, contributions and liability totals of both books. */
  function TotalsFor(b: Books, year: int): (t: YearTotals)
    ensures t.liabilities >= 0.0 && t.corporateLiabilities >= 0.0
  {
    var p, c := b.income.personal, b.income.corporate;
    var pe, ce := b.expenses.personal, b.expenses.corporate;
    SumOfNonNegative(b.liabilities.personal, LiabilityAt(year));
    SumOfNonNegative(b.liabilities.corporate, LiabilityAt(year));
    YearTotals(
      salary := LineAmount(p, SalaryName, year),
      sideIncome := LineAmount(p, SideIncomeName, year),
      spouseIncome := LineAmount(p, SpouseIncomeName, year),
      pension := LineAmount(p, PensionName, year),
      spousePension := LineAmount(p, SpousePensionName, year),
      living := SumOf(pe, ExpenseIn(IsLiving, year)),
      housing := SumOf(pe, ExpenseIn(IsHousing, year)),
      education := SumOf(pe, ExpenseIn(IsEducation, year)),
      otherExpense := SumOf(pe, ExpenseIn(IsOtherPersonal, year)),
      repayment := Loans.RepaymentIn(b.liabilities.personal, year, LastYear(b.info)),
      eventIncome := EventTotal(b.events, year, PersonalSource, IncomeEvent),
      eventExpense := EventTotal(b.events, year, PersonalSource, ExpenseEvent),
      invested := SumOf(p, InvestedAt(year)),
      investmentEvents := InvestmentEvents(b.events, year, PersonalInvestmentSource),
      liabilities := SumOf(b.liabilities.personal, LiabilityAt(year)),
      sales := LineAmount(c, SalesName, year),
      otherIncome := LineAmount(c, OtherIncomeName, year),
      business := SumOf(ce, ExpenseIn(IsBusiness, year)),
      corporateOther := SumOf(ce, ExpenseIn(IsCorporateOther, year)),
      corporateRepayment := Loans.RepaymentIn(b.liabilities.corporate, year, LastYear(b.info)),
      corporateEventIncome := EventTotal(b.events, year, CorporateSource, IncomeEvent),
      corporateEventExpense := EventTotal(b.events, year, CorporateSource, ExpenseEvent),
      corporateInvested := SumOf(c, InvestedAt(year)),
      corporateInvestmentEvents := InvestmentEvents(b.events, year, CorporateInvestmentSource),
      corporateLiabilities := SumOf(b.liabilities.corporate, LiabilityAt(year)))
  }

  /** What the projection takes once: the start year, the return rate, and the start-year asset totals. */
  datatype Context = Context(startYear: int, investmentReturn: real,
                             personalAssets: real, corporateAssets: real, personalSeed: real, corporateSeed: real)

  /** Total assets are every line's absolute start-year amount; the pools are seeded with the investment lines. */
  function ContextOf(b: Books): Context
  {
    Context(b.info.startYear, b.params.investmentReturn,
            SumOf(b.assets.personal, AssetAt(b.info.startYear)), SumOf(b.assets.corporate, AssetAt(b.info.startYear)),
            SumOf(b.assets.personal, InvestmentAssetAt(b.info.startYear)),
            SumOf(b.assets.corporate, InvestmentAssetAt(b.info.startYear)))
  }

  /** What the year loop carries from one year to the next. */
  datatype Running = Running(personalAssets: real, corporateAssets: real, personalPool: real, corporatePool: real)

  function Initial(ctx: Context): Running
  {
    Running(ctx.personalAssets, ctx.corporateAssets, ctx.personalSeed, ctx.corporateSeed)
  }

  /** The pool a year grows from: the previous year's pool, or the seed in the first year or when that pool is 0. */
  function PrevPool(yearsSinceStart: int, last: real, seed: real): real
  {
    if yearsSinceStart > 0 && last != 0.0 then last else seed
  }

  function Returns(pool: real, investmentReturn: real): real
  {
    pool * (investmentReturn / 100.0)
  }

  /** A year's return on the pool, to one decimal. */
  function InvestmentIncome(ctx: Context, prevPool: real): real
  {
    Round1(Returns(prevPool, ctx.investmentReturn))
  }

  function PersonalPrev(ctx: Context, yearsSinceStart: nat, run: Running): real
  {
    PrevPool(yearsSinceStart, run.personalPool, ctx.personalSeed)
  }

  function CorporatePrev(ctx: Context, yearsSinceStart: nat, run: Running): real
  {
    PrevPool(yearsSinceStart, run.corporatePool, ctx.corporateSeed)
  }

  /** Personal income less personal expense; the investment events are not part of it. */
  function PersonalBalance(t: YearTotals, investmentIncome: real): real
  {
    (t.salary + t.sideIncome + t.spouseIncome + t.pension + t.spousePension + investmentIncome + t.eventIncome)
      - (t.living + t.housing + t.education + t.otherExpense + t.eventExpense + t.repayment)
  }

  function CorporateBalance(t: YearTotals, investmentIncome: real): real
  {
    (t.sales + t.otherIncome + investmentIncome + t.corporateEventIncome)
      - (t.business + t.corporateOther + t.corporateEventExpense + t.corporateRepayment)
  }

  /** The pool at the end of a year: grown by contributions, returns and investment events, never below 0. */
  function PoolAfter(prevPool: real, invested: real, investmentIncome: real, events: real): (r: real)
    ensures r >= 0.0
    ensures prevPool + invested + investmentIncome + events >= 0.0 ==> r == Round1(prevPool + invested + investmentIncome + events)
  {
    var x := prevPool + invested + investmentIncome + events;
    if x >= 0.0 then Round1NonNegative(x); Max(0.0, Round1(x)) else Max(0.0, Round1(x))
  }

  /** The carry after a year: every year's balance is added, the first year's included. */
  function Next(ctx: Context, yearsSinceStart: nat, t: YearTotals, run: Running): Running
  {
    var pPrev, cPrev := PersonalPrev(ctx, yearsSinceStart, run), CorporatePrev(ctx, yearsSinceStart, run);
    Running(run.personalAssets + PersonalBalance(t, InvestmentIncome(ctx, pPrev)),
            run.corporateAssets + CorporateBalance(t, InvestmentIncome(ctx, cPrev)),
            PoolAfter(pPrev, t.invested, InvestmentIncome(ctx, pPrev), t.investmentEvents),
            PoolAfter(cPrev, t.corporateInvested, InvestmentIncome(ctx, cPrev), t.corporateInvestmentEvents))
  }

  /** Net assets: total assets less liabilities, to one decimal, with no floor at 0. */
  function NetWorth(assets: real, liabilities: real): (r: real)
    ensures assets + 0.05 < liabilities ==> r < 0.0
    ensures assets >= liabilities ==> r >= 0.0
  {
    if assets >= liabilities then
      Round1NonNegative(assets - liabilities);
      Round1(assets - liabilities)
    else Round1(assets - liabilities)
  }

  /** The record of a year, given the carry before it; every figure is rounded to one decimal. */
  function RecordOf(ctx: Context, yearsSinceStart: nat, t: YearTotals, run: Running): (r: CashFlowYear)
    ensures r.totalInvestmentAssets >= 0.0 && r.corporateTotalInvestmentAssets >= 0.0
  {
    var pPrev, cPrev := PersonalPrev(ctx, yearsSinceStart, run), CorporatePrev(ctx, yearsSinceStart, run);
    var after := Next(ctx, yearsSinceStart, t, run);
    CashFlowYear(
      mainIncome := Round1(t.salary),
      sideIncome := Round1(t.sideIncome),
      spouseIncome := Round1(t.spouseIncome),
      pensionIncome := Round1(t.pension),
      spousePensionIncome := Round1(t.spousePension),
      investmentIncome := InvestmentIncome(ctx, pPrev),
      livingExpense := Round1(t.living),
      housingExpense := Round1(t.housing),
      educationExpense := Round1(t.education),
      otherExpense := Round1(t.otherExpense),
      loanRepayment := Round1(t.repayment),
      personalAssets := Round1(after.personalAssets),
      investmentAmount := Round1(t.invested),
      totalInvestmentAssets := after.personalPool,
      personalBalance := Round1(PersonalBalance(t, InvestmentIncome(ctx, pPrev))),
      personalTotalAssets := Round1(after.personalAssets),
      personalLiabilityTotal := Round1(t.liabilities),
      personalNetAssets := NetWorth(after.personalAssets, t.liabilities),
      corporateIncome := Round1(t.sales),
      corporateOtherIncome := Round1(t.otherIncome),
      corporateExpense := Round1(t.business),
      corporateOtherExpense := Round1(t.corporateOther),
      corporateLoanRepayment := Round1(t.corporateRepayment),
      corporateBalance := Round1(CorporateBalance(t, InvestmentIncome(ctx, cPrev))),
      corporateTotalAssets := Round1(after.corporateAssets),
      corporateLiabilityTotal := Round1(t.corporateLiabilities),
      corporateNetAssets := NetWorth(after.corporateAssets, t.corporateLiabilities),
      corporateInvestmentAmount := Round1(t.corporateInvested),
      corporateInvestmentIncome := InvestmentIncome(ctx, cPrev),
      corporateTotalInvestmentAssets := after.corporatePool)
  }

  /** The carried figures a record shows. */
  lemma RecordFields(ctx: Context, yearsSinceStart: nat, t: YearTotals, run: Running)
    ensures RecordOf(ctx, yearsSinceStart, t, run).personalTotalAssets == Round1(Next(ctx, yearsSinceStart, t, run).personalAssets)
    ensures RecordOf(ctx, yearsSinceStart, t, run).personalNetAssets
            == NetWorth(Next(ctx, yearsSinceStart, t, run).personalAssets, t.liabilities)
    ensures RecordOf(ctx, yearsSinceStart, t, run).totalInvestmentAssets == Next(ctx, yearsSinceStart, t, run).personalPool
    ensures RecordOf(ctx, yearsSinceStart, t, run).corporateTotalInvestmentAssets == Next(ctx, yearsSinceStart, t, run).corporatePool
    ensures RecordOf(ctx, yearsSinceStart, t, run).investmentIncome == InvestmentIncome(ctx, PersonalPrev(ctx, yearsSinceStart, run))
  {
  }

  // ---------------------------------------------------------------------------
  // The fold over the years
  // ---------------------------------------------------------------------------

  /** The carry after the years whose totals are `ts`. */
  function RunOver(ctx: Context, ts: seq<YearTotals>): Running
  {
    if ts == [] then Initial(ctx)
    else Next(ctx, |ts| - 1, ts[|ts| - 1], RunOver(ctx, ts[..|ts| - 1]))
  }

  /** The records of the years whose totals are `ts`, in the order the year loop writes them. */
  function RecordsOver(ctx: Context, ts: seq<YearTotals>): (r: CashFlowData)
    ensures forall y :: y in r <==> ctx.startYear <= y < ctx.startYear + |ts|
  {
    if ts == [] then map[]
    else
      var prefix := ts[..|ts| - 1];
      RecordsOver(ctx, prefix)[ctx.startYear + |prefix| := RecordOf(ctx, |prefix|, ts[|ts| - 1], RunOver(ctx, prefix))]
  }

  /** The carry after one year more. */
  lemma RunOverStep(ctx: Context, ts: seq<YearTotals>, i: nat)
    requires i < |ts|
    ensures RunOver(ctx, ts[..i + 1]) == Next(ctx, i, ts[i], RunOver(ctx, ts[..i]))
  {
    assert ts[..i + 1][..i] == ts[..i];
  }

  /** A year's record is computed from the carry of the years before it, and no later year overwrites it. */
  lemma {:induction false} RecordsOverAt(ctx: Context, ts: seq<YearTotals>, i: nat)
    requires i < |ts|
    ensures RecordsOver(ctx, ts)[ctx.startYear + i] == RecordOf(ctx, i, ts[i], RunOver(ctx, ts[..i]))
  {
    var prefix := ts[..|ts| - 1];
    if i == |prefix| {
      assert ts[..i] == prefix;
    } else {
      RecordsOverAt(ctx, prefix, i);
      assert prefix[i] == ts[i] && prefix[..i] == ts[..i];
    }
  }

  /** The last record written holds the pools the carry has reached. */
  lemma LastRecordPools(ctx: Context, ts: seq<YearTotals>)
    requires ts != []
    ensures RecordsOver(ctx, ts)[ctx.startYear + |ts| - 1].totalInvestmentAssets == RunOver(ctx, ts).personalPool
    ensures RecordsOver(ctx, ts)[ctx.startYear + |ts| - 1].corporateTotalInvestmentAssets == RunOver(ctx, ts).corporatePool
  {
    var prefix := ts[..|ts| - 1];
    RecordFields(ctx, |prefix|, ts[|ts| - 1], RunOver(ctx, prefix));
  }

  /** The sum of the personal balances of the years whose totals are `ts`. */
  function BalancesOver(ctx: Context, ts: seq<YearTotals>): real
  {
    if ts == [] then 0.0
    else
      var prefix := ts[..|ts| - 1];
      BalancesOver(ctx, prefix) + PersonalBalance(ts[|ts| - 1], InvestmentIncome(ctx, PersonalPrev(ctx, |prefix|, RunOver(ctx, prefix))))
  }

  /** The running total assets are the start-year assets plus every balance so far, the first year's included. */
  lemma {:induction false} TotalAssetsClosedForm(ctx: Context, ts: seq<YearTotals>)
    ensures RunOver(ctx, ts).personalAssets == ctx.personalAssets + BalancesOver(ctx, ts)
  {
    if ts != [] {
      TotalAssetsClosedForm(ctx, ts[..|ts| - 1]);
    }
  }

  /** Each record's total assets are the start-year assets plus the balances up to and including its year. */
  lemma RecordedTotalAssetsOver(ctx: Context, ts: seq<YearTotals>, i: nat)
    requires i < |ts|
    ensures RecordsOver(ctx, ts)[ctx.startYear + i].personalTotalAssets
            == Round1(ctx.personalAssets + BalancesOver(ctx, ts[..i + 1]))
  {
    RecordsOverAt(ctx, ts, i);
    RecordFields(ctx, i, ts[i], RunOver(ctx, ts[..i]));
    RunOverStep(ctx, ts, i);
    TotalAssetsClosedForm(ctx, ts[..i + 1]);
  }

  /** Net assets are not floored: liabilities above the year's total assets give a negative net. */
  lemma NetAssetsCanBeNegative(ctx: Context, ts: seq<YearTotals>, i: nat)
    requires i < |ts|
    requires RunOver(ctx, ts[..i + 1]).personalAssets + 0.05 < ts[i].liabilities
    ensures RecordsOver(ctx, ts)[ctx.startYear + i].personalNetAssets < 0.0
  {
    RecordsOverAt(ctx, ts, i);
    RecordFields(ctx, i, ts[i], RunOver(ctx, ts[..i]));
    RunOverStep(ctx, ts, i);
  }

  /** Both investment pools of every record are non-negative. */
  lemma PoolsNonNegative(ctx: Context, ts: seq<YearTotals>, y: int)
    requires y in RecordsOver(ctx, ts)
    ensures RecordsOver(ctx, ts)[y].totalInvestmentAssets >= 0.0
    ensures RecordsOver(ctx, ts)[y].corporateTotalInvestmentAssets >= 0.0
  {
    RecordsOverAt(ctx, ts, y - ctx.startYear);
  }

  /**
   * A year's return grows the pool carried from the year before (which the
   * previous record shows, `PoolCarried`), or the seed in the first year or
   * when that pool is 0.
   */
  lemma ReturnOnPreviousPool(ctx: Context, ts: seq<YearTotals>, i: nat)
    requires i < |ts|
    ensures RecordsOver(ctx, ts)[ctx.startYear + i].investmentIncome
            == InvestmentIncome(ctx, PrevPool(i, RunOver(ctx, ts[..i]).personalPool, ctx.personalSeed))
  {
    RecordsOverAt(ctx, ts, i);
    RecordFields(ctx, i, ts[i], RunOver(ctx, ts[..i]));
  }

  /** The pool a record shows is the pool the next year grows from. */
  lemma PoolCarried(ctx: Context, ts: seq<YearTotals>, j: nat)
    requires j < |ts|
    ensures RecordsOver(ctx, ts)[ctx.startYear + j].totalInvestmentAssets == RunOver(ctx, ts[..j + 1]).personalPool
  {
    RecordsOverAt(ctx, ts, j);
    RecordFields(ctx, j, ts[j], RunOver(ctx, ts[..j]));
    RunOverStep(ctx, ts, j);
  }

  // ---------------------------------------------------------------------------
  // The projection of the tables
  // ---------------------------------------------------------------------------

  /** Each year's totals. */
  function TotalsOf(b: Books): int -> YearTotals
  {
    (year: int) => TotalsFor(b, year)
  }

  /** The totals of the first `k` projected years. */
  function TotalsUpTo(b: Books, k: nat): (ts: seq<YearTotals>)
    ensures |ts| == k
  {
    Sample(TotalsOf(b), b.info.startYear, k)
  }

  /** `syncCashFlowFromFormData`'s result: one record per projected year. */
  function Projection(b: Books): (r: CashFlowData)
    ensures forall y :: y in r <==> InYears(b.info, y)
  {
    RecordsOver(ContextOf(b), TotalsUpTo(b, YearCount(b.info)))
  }

  /** The totals of one year more. */
  lemma TotalsUpToStep(b: Books, k: nat)
    ensures TotalsUpTo(b, k + 1) == TotalsUpTo(b, k) + [TotalsFor(b, b.info.startYear + k)]
  {
  }

  /** An added life event changes only the figures of its own year, source and type. */
  lemma AddedEventTotals(b: Books, e: LifeEvent, year: int)
    ensures TotalsFor(b.(events := b.events + [e]), year).eventIncome
            == TotalsFor(b, year).eventIncome + (if e.year == year && e.source == PersonalSource && e.kind == IncomeEvent then e.amount else 0.0)
    ensures TotalsFor(b.(events := b.events + [e]), year).eventExpense
            == TotalsFor(b, year).eventExpense + (if e.year == year && e.source == PersonalSource && e.kind == ExpenseEvent then e.amount else 0.0)
    ensures e.source == PersonalInvestmentSource && e.year == year ==>
            TotalsFor(b.(events := b.events + [e]), year).investmentEvents
            == TotalsFor(b, year).investmentEvents + (if e.kind == IncomeEvent then e.amount else -e.amount)
  {
    EventTotalAppend(b.events, e, year, PersonalSource, IncomeEvent);
    EventTotalAppend(b.events, e, year, PersonalSource, ExpenseEvent);
    EventTotalAppend(b.events, e, year, PersonalInvestmentSource, IncomeEvent);
    EventTotalAppend(b.events, e, year, PersonalInvestmentSource, ExpenseEvent);
  }

  /** An investment-source event moves the pool, not the year's balance. */
  lemma InvestmentEventKeepsBalance(b: Books, e: LifeEvent, year: int, investmentIncome: real)
    requires e.source == PersonalInvestmentSource
    ensures PersonalBalance(TotalsFor(b.(events := b.events + [e]), year), investmentIncome)
            == PersonalBalance(TotalsFor(b, year), investmentIncome)
  {
    AddedEventTotals(b, e, year);
  }

  /** A corporate line of type other and category business is counted both as business and as other expense. */
  lemma CorporateDoubleCount(b: Books, item: ExpenseItem, year: int)
    requires item.kind == "other" && item.category == "business" && b.expenses.corporate == [item]
    ensures TotalsFor(b, year).business == Get(item.amounts, year)
    ensures TotalsFor(b, year).corporateOther == Get(item.amounts, year)
  {
    assert [item][..0] == [];
    assert SumOf([item], ExpenseIn(IsBusiness, year)) == SumOf([], ExpenseIn(IsBusiness, year)) + ExpenseIn(IsBusiness, year)(item);
    assert SumOf([item], ExpenseIn(IsCorporateOther, year))
        == SumOf([], ExpenseIn(IsCorporateOther, year)) + ExpenseIn(IsCorporateOther, year)(item);
  }

  // ---------------------------------------------------------------------------
  // The computation
  // ---------------------------------------------------------------------------

  /** The expense buckets of one year, each a `forEach` that sums its lines. */
  method ExpenseBuckets(b: Books, year: int) returns (living: real, housing: real, education: real, other: real,
                                                    business: real, corporateOther: real)
    ensures living == SumOf(b.expenses.personal, ExpenseIn(IsLiving, year))
    ensures housing == SumOf(b.expenses.personal, ExpenseIn(IsHousing, year))
    ensures education == SumOf(b.expenses.personal, ExpenseIn(IsEducation, year))
    ensures other == SumOf(b.expenses.personal, ExpenseIn(IsOtherPersonal, year))
    ensures business == SumOf(b.expenses.corporate, ExpenseIn(IsBusiness, year))
    ensures corporateOther == SumOf(b.expenses.corporate, ExpenseIn(IsCorporateOther, year))
  {
    living := SumBy(b.expenses.personal, ExpenseIn(IsLiving, year));
    housing := SumBy(b.expenses.personal, ExpenseIn(IsHousing, year));
    education := SumBy(b.expenses.personal, ExpenseIn(IsEducation, year));
    other := SumBy(b.expenses.personal, ExpenseIn(IsOtherPersonal, year));
    business := SumBy(b.expenses.corporate, ExpenseIn(IsBusiness, year));
    corporateOther := SumBy(b.expenses.corporate, ExpenseIn(IsCorporateOther, year));
  }

  /** The table-driven part of one pass of the year loop. */
  method YearTotalsOf(b: Books, year: int, repayment: real, corporateRepayment: real) returns (t: YearTotals)
    requires repayment == Loans.RepaymentIn(b.liabilities.personal, year, LastYear(b.info))
    requires corporateRepayment == Loans.RepaymentIn(b.liabilities.corporate, year, LastYear(b.info))
    ensures t == TotalsFor(b, year)
  {
    var p, c := b.income.personal, b.income.corporate;
    var living, housing, education, other, business, corporateOther := ExpenseBuckets(b, year);
    var eventIncome, eventExpense := ProcessLifeEvents(b.events, year, PersonalSource);
    var corporateEventIncome, corporateEventExpense := ProcessLifeEvents(b.events, year, CorporateSource);
    var investIn, investOut := ProcessLifeEvents(b.events, year, PersonalInvestmentSource);
    var corporateInvestIn, corporateInvestOut := ProcessLifeEvents(b.events, year, CorporateInvestmentSource);
    var invested := SumBy(p, InvestedAt(year));
    var corporateInvested := SumBy(c, InvestedAt(year));
    var liabilities := SumBy(b.liabilities.personal, LiabilityAt(year));
    var corporateLiabilities := SumBy(b.liabilities.corporate, LiabilityAt(year));
    t := YearTotals(
      LineAmount(p, SalaryName, year), LineAmount(p, SideIncomeName, year), LineAmount(p, SpouseIncomeName, year),
      LineAmount(p, PensionName, year), LineAmount(p, SpousePensionName, year),
      living, housing, education, other, repayment,
      eventIncome, eventExpense, invested, investIn - investOut, liabilities,
      LineAmount(c, SalesName, year), LineAmount(c, OtherIncomeName, year), business, corporateOther, corporateRepayment,
      corporateEventIncome, corporateEventExpense, corporateInvested, corporateInvestIn - corporateInvestOut,
      corporateLiabilities);
  }

  /** The carry-driven part of one pass of the year loop: the record and the new carry. */
  method ProjectYear(ctx: Context, yearsSinceStart: nat, t: YearTotals, run: Running, pPrev: real, cPrev: real)
    returns (record: CashFlowYear, after: Running)
    requires pPrev == PersonalPrev(ctx, yearsSinceStart, run) && cPrev == CorporatePrev(ctx, yearsSinceStart, run)
    ensures record == RecordOf(ctx, yearsSinceStart, t, run)
    ensures after == Next(ctx, yearsSinceStart, t, run)
  {
    var pReturn := InvestmentIncome(ctx, pPrev);
    var cReturn := InvestmentIncome(ctx, cPrev);
    var pIncome := t.salary + t.sideIncome + t.spouseIncome + t.pension + t.spousePension + pReturn + t.eventIncome;
    var pExpense := t.living + t.housing + t.education + t.otherExpense + t.eventExpense + t.repayment;
    var cIncome := t.sales + t.otherIncome + cReturn + t.corporateEventIncome;
    var cExpense := t.business + t.corporateOther + t.corporateEventExpense + t.corporateRepayment;
    var pBalance, cBalance := pIncome - pExpense, cIncome - cExpense;
    var pPool := PoolAfter(pPrev, t.invested, pReturn, t.investmentEvents);
    var cPool := PoolAfter(cPrev, t.corporateInvested, cReturn, t.corporateInvestmentEvents);
    var pAssets, cAssets := run.personalAssets + pBalance, run.corporateAssets + cBalance;
    after := Running(pAssets, cAssets, pPool, cPool);
    record := CashFlowYear(
      mainIncome := Round1(t.salary),
      sideIncome := Round1(t.sideIncome),
      spouseIncome := Round1(t.spouseIncome),
      pensionIncome := Round1(t.pension),
      spousePensionIncome := Round1(t.spousePension),
      investmentIncome := pReturn,
      livingExpense := Round1(t.living),
      housingExpense := Round1(t.housing),
      educationExpense := Round1(t.education),
      otherExpense := Round1(t.otherExpense),
      loanRepayment := Round1(t.repayment),
      personalAssets := Round1(pAssets),
      investmentAmount := Round1(t.invested),
      totalInvestmentAssets := pPool,
      personalBalance := Round1(pBalance),
      personalTotalAssets := Round1(pAssets),
      personalLiabilityTotal := Round1(t.liabilities),
      personalNetAssets := NetWorth(pAssets, t.liabilities),
      corporateIncome := Round1(t.sales),
      corporateOtherIncome := Round1(t.otherIncome),
      corporateExpense := Round1(t.business),
      corporateOtherExpense := Round1(t.corporateOther),
      corporateLoanRepayment := Round1(t.corporateRepayment),
      corporateBalance := Round1(cBalance),
      corporateTotalAssets := Round1(cAssets),
      corporateLiabilityTotal := Round1(t.corporateLiabilities),
      corporateNetAssets := NetWorth(cAssets, t.corporateLiabilities),
      corporateInvestmentAmount := Round1(t.corporateInvested),
      corporateInvestmentIncome := cReturn,
      corporateTotalInvestmentAssets := cPool);
  }

  /** One pass of the year loop: the record goes under its year, the previous pool read back from the record before it. */
  method StepYear(ctx: Context, ghost ts: seq<YearTotals>, k: nat, t: YearTotals, run: Running, cashFlow: CashFlowData)
    returns (after: Running, cashFlow': CashFlowData)
    requires k == |ts| && run == RunOver(ctx, ts) && cashFlow == RecordsOver(ctx, ts)
    ensures after == RunOver(ctx, ts + [t]) && cashFlow' == RecordsOver(ctx, ts + [t])
  {
    var pPrev, cPrev := ctx.personalSeed, ctx.corporateSeed;
    if k > 0 {
      LastRecordPools(ctx, ts);
      var previous := cashFlow[ctx.startYear + k - 1];
      if previous.totalInvestmentAssets != 0.0 { pPrev := previous.totalInvestmentAssets; }
      if previous.corporateTotalInvestmentAssets != 0.0 { cPrev := previous.corporateTotalInvestmentAssets; }
    }
    var record;
    record, after := ProjectYear(ctx, k, t, run, pPrev, cPrev);
    assert (ts + [t])[..|ts|] == ts;
    cashFlow' := cashFlow[ctx.startYear + k := record];
  }

  /** The table-driven figures of every projected year, in order. */
  method TotalsOfYears(b: Books) returns (ts: seq<YearTotals>)
    ensures ts == TotalsUpTo(b, YearCount(b.info))
  {
    var last := LastYear(b.info);
    var repayments := Loans.LoanRepayments(b.liabilities.personal, last);
    var corporateRepayments := Loans.LoanRepayments(b.liabilities.corporate, last);
    ts := [];
    var k := 0;
    while k < YearCount(b.info)
      invariant 0 <= k <= YearCount(b.info)
      invariant ts == TotalsUpTo(b, k)
    {
      var year := b.info.startYear + k;
      var t := YearTotalsOf(b, year, Get(repayments, year), Get(corporateRepayments, year));
      TotalsUpToStep(b, k);
      ts := ts + [t];
      k := k + 1;
    }
  }

  /** The carry-driven part of the year loop: one record per year of `ts`. */
  method FoldYears(ctx: Context, ts: seq<YearTotals>) returns (cashFlow: CashFlowData)
    ensures cashFlow == RecordsOver(ctx, ts)
  {
    var run := Initial(ctx);
    cashFlow := map[];
    var k := 0;
    while k < |ts|
      invariant 0 <= k <= |ts|
      invariant run == RunOver(ctx, ts[..k])
      invariant cashFlow == RecordsOver(ctx, ts[..k])
    {
      run, cashFlow := StepYear(ctx, ts[..k], k, ts[k], run, cashFlow);
      assert ts[..k] + [ts[k]] == ts[..k + 1];
      k := k + 1;
    }
    assert ts[..k] == ts;
  }

  /**
   * `syncCashFlowFromFormData` after the pension lines are written: the
   * repayments, the start-year totals, then one record per year.
   */
  method ProjectCashFlow(b: Books) returns (cashFlow: CashFlowData)
    ensures cashFlow == Projection(b)
  {
    var ts := TotalsOfYears(b);
    var pAssets := SumBy(b.assets.personal, AssetAt(b.info.startYear));
    var cAssets := SumBy(b.assets.corporate, AssetAt(b.info.startYear));
    var pSeed := SumBy(b.assets.personal, InvestmentAssetAt(b.info.startYear));
    var cSeed := SumBy(b.assets.corporate, InvestmentAssetAt(b.info.startYear));
    var ctx := Context(b.info.startYear, b.params.investmentReturn, pAssets, cAssets, pSeed, cSeed);
    cashFlow := FoldYears(ctx, ts);
  }
}
