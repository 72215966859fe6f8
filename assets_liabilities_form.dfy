/**
 * The assets-and-liabilities form: the loan calculation that fills a
 * liability with the balances of its repayment schedule (and puts the
 * borrowed amount into the cash asset), its cancellation, the repayment
 * preview of the loan modal, manual liability edits and new asset lines.
 * Each handler works on one section (`personal` or `corporate`) of the asset
 * and liability tables.
 */
module AssetsLiabilitiesForm {
  import opened Money
  import opened SimulatorTypes
  import Calculations
  import Loans
  import ItemIds

  /** The modal's settings. */
  datatype LoanSettings = LoanSettings(
    borrowAmount: real,
    startYear: int,
    interestRate: real,
    termYears: int,
    repaymentType: RepaymentType)

  /** The modal's initial settings: 1000万円 from the start year at 2% over 10 years, level payments. */
  function DefaultLoanSettings(info: BasicInfo): LoanSettings
  {
    LoanSettings(1000.0, info.startYear, 2.0, 10, EqualPayment)
  }

  function TermsOf(s: LoanSettings): Loans.LoanTerms
  {
    Loans.LoanTerms(s.borrowAmount, s.interestRate, s.termYears, s.repaymentType)
  }

  // ---------------------------------------------------------------------------
  // Preview
  // ---------------------------------------------------------------------------

  datatype Preview = Preview(monthlyPayment: real, totalPayment: real, totalInterest: real)

  function MonthlyRate(s: LoanSettings): real
  {
    s.interestRate / 100.0 / 12.0
  }

  function MonthlyInterest(balance: real, rate: real): real
  {
    balance * rate
  }

  /** The interest of `months` months on a balance that falls by `principal` a month. */
  function InterestSum(balance: real, rate: real, principal: real, months: nat): real
    decreases months
  {
    if months == 0 then 0.0 else MonthlyInterest(balance, rate) + InterestSum(balance - principal, rate, principal, months - 1)
  }

  /** `0 + 1 + … + (k - 1)`. */
  function Triangle(k: nat): real
  {
    if k == 0 then 0.0 else Triangle(k - 1) + (k - 1) as real
  }

  lemma {:induction false} TriangleClosedForm(k: nat)
    ensures 2.0 * Triangle(k) == (k as real) * ((k as real) - 1.0)
  {
    if k > 0 {
      TriangleClosedForm(k - 1);
      var x := (k - 1) as real;
      assert 2.0 * Triangle(k) == x * (x - 1.0) + 2.0 * x;
      assert x * (x - 1.0) + 2.0 * x == (x + 1.0) * x;
    }
  }

  /** The interest on a falling balance in closed form: `rate · (months · balance − principal · months(months−1)/2)`. */
  function InterestClosedForm(balance: real, rate: real, principal: real, months: nat): real
  {
    rate * ((months as real) * balance - principal * Triangle(months))
  }

  /** Peeling off the first month of the closed form leaves the first month's interest and the closed form of the rest. */
  lemma InterestClosedFormStep(balance: real, rate: real, principal: real, months: nat)
    requires months > 0
    ensures InterestClosedForm(balance, rate, principal, months)
            == balance * rate + InterestClosedForm(balance - principal, rate, principal, months - 1)
  {
    var k := (months - 1) as real;
    var t := Triangle(months - 1);
    assert Triangle(months) == t + k;
    assert months as real == k + 1.0;
    assert InterestClosedForm(balance - principal, rate, principal, months - 1) == rate * (k * (balance - principal) - principal * t);
    assert rate * (k * (balance - principal) - principal * t)
           == rate * (k * balance) - rate * (k * principal) - rate * (principal * t);
    assert rate * ((k + 1.0) * balance - principal * (t + k))
           == rate * (k * balance) + rate * balance - rate * (principal * k) - rate * (principal * t);
  }

  lemma {:induction false} InterestSumClosedForm(balance: real, rate: real, principal: real, months: nat)
    ensures InterestSum(balance, rate, principal, months) == InterestClosedForm(balance, rate, principal, months)
    decreases months
  {
    if months > 0 {
      InterestSumClosedForm(balance - principal, rate, principal, months - 1);
      InterestClosedFormStep(balance, rate, principal, months);
    }
  }

  /**
   * `calculatePreview`: nothing for a non-positive amount or term; at 0% the
   * amount spread over the months; with level payments the monthly annuity;
   * with level principal the first month's payment and the interest the
   * month-by-month loop accumulates.
   */
  function LoanPreview(s: LoanSettings): (r: Preview)
    ensures s.borrowAmount <= 0.0 || s.termYears <= 0 ==> r == Preview(0.0, 0.0, 0.0)
    ensures s.borrowAmount > 0.0 && s.termYears > 0 && s.interestRate == 0.0 ==>
              r.totalPayment == s.borrowAmount && r.totalInterest == 0.0
    ensures s.borrowAmount > 0.0 && s.termYears > 0 && s.interestRate != 0.0 && s.repaymentType == EqualPayment ==>
              r.totalPayment == Round1(AnnuityTotal(s)) && r.totalInterest == Round1(AnnuityTotal(s) - s.borrowAmount)
  {
    if s.borrowAmount <= 0.0 || s.termYears <= 0 then Preview(0.0, 0.0, 0.0)
    else if s.interestRate == 0.0 then Preview(Round1(s.borrowAmount / s.termYears as real / 12.0), s.borrowAmount, 0.0)
    else if s.repaymentType == EqualPayment then LevelPaymentPreview(s)
    else LevelPrincipalPreview(s, InterestSum(s.borrowAmount, MonthlyRate(s), LevelMonthlyPrincipal(s), s.termYears * 12))
  }

  /** The monthly annuity, its total over the term and the interest that total holds. */
  function LevelPaymentPreview(s: LoanSettings): Preview
    requires s.termYears > 0
  {
    var total := AnnuityTotal(s);
    Preview(Round1(Calculations.AnnuityPayment(s.borrowAmount, MonthlyRate(s), s.termYears * 12)), Round1(total), Round1(total - s.borrowAmount))
  }

  /** The monthly annuity paid over every month of the term. */
  function AnnuityTotal(s: LoanSettings): real
    requires s.termYears > 0
  {
    Calculations.AnnuityPayment(s.borrowAmount, MonthlyRate(s), s.termYears * 12) * (s.termYears * 12) as real
  }

  function LevelMonthlyPrincipal(s: LoanSettings): real
    requires s.termYears > 0
  {
    s.borrowAmount / (s.termYears * 12) as real
  }

  /** The first month's payment, and the amount plus the accumulated `interest`. */
  function LevelPrincipalPreview(s: LoanSettings, interest: real): Preview
    requires s.termYears > 0
  {
    Preview(Round1(LevelMonthlyPrincipal(s) + MonthlyInterest(s.borrowAmount, MonthlyRate(s))), Round1(s.borrowAmount + interest), Round1(interest))
  }

  /** `r · (n·b − (b/n)·T)` with `2T = n(n−1)` is `b · r · (n+1)/2`. */
  lemma AverageBalance(b: real, r: real, n: real, t: real)
    requires n > 0.0 && 2.0 * t == n * (n - 1.0)
    ensures r * (n * b - (b / n) * t) == b * r * (n + 1.0) / 2.0
  {
    var p := b / n;
    assert p * n == b;
    assert p * t == b * (n - 1.0) / 2.0 by {
      assert 2.0 * (p * t) == p * (n * (n - 1.0));
      assert p * (n * (n - 1.0)) == (p * n) * (n - 1.0);
    }
    assert n * b - b * (n - 1.0) / 2.0 == b * (n + 1.0) / 2.0;
  }

  /** The interest of the term on the average balance, `borrowAmount · monthlyRate · (months + 1) / 2`. */
  function AverageInterest(s: LoanSettings): real
  {
    s.borrowAmount * MonthlyRate(s) * ((s.termYears * 12) as real + 1.0) / 2.0
  }

  /**
   * With level principal the accumulated interest is the interest on the
   * average balance: `borrowAmount · monthlyRate · (months + 1) / 2`.
   */
  lemma EqualPrincipalInterest(s: LoanSettings)
    requires s.borrowAmount > 0.0 && s.termYears > 0 && s.interestRate != 0.0 && s.repaymentType == EqualPrincipal
    ensures LoanPreview(s).totalInterest == Round1(AverageInterest(s))
    ensures LoanPreview(s).totalPayment == Round1(s.borrowAmount + AverageInterest(s))
  {
    var interest := InterestSum(s.borrowAmount, MonthlyRate(s), LevelMonthlyPrincipal(s), s.termYears * 12);
    assert LoanPreview(s) == LevelPrincipalPreview(s, interest);
    LevelPrincipalInterest(s);
  }

  /** The level-principal loop's interest total is the interest on the average balance. */
  lemma LevelPrincipalInterest(s: LoanSettings)
    requires s.termYears > 0
    ensures InterestSum(s.borrowAmount, MonthlyRate(s), LevelMonthlyPrincipal(s), s.termYears * 12) == AverageInterest(s)
  {
    var months := s.termYears * 12;
    var n := months as real;
    var b, r, p := s.borrowAmount, MonthlyRate(s), LevelMonthlyPrincipal(s);
    InterestSumClosedForm(b, r, p, months);
    TriangleClosedForm(months);
    assert p == b / n;
    AverageBalance(b, r, n, Triangle(months));
  }

  /**
   * With level payments at a positive rate the term's payments cover the
   * amount borrowed: the total shown is at least the rounded amount and the
   * interest shown is never negative.
   */
  lemma LevelPaymentInterestNonNegative(s: LoanSettings)
    requires s.borrowAmount > 0.0 && s.termYears > 0 && s.interestRate > 0.0 && s.repaymentType == EqualPayment
    ensures LoanPreview(s).totalInterest >= 0.0
    ensures LoanPreview(s).totalPayment >= Round1(s.borrowAmount)
  {
    var total := AnnuityTotal(s);
    Calculations.AnnuityTotalCoversPrincipal(s.borrowAmount, MonthlyRate(s), s.termYears * 12);
    Round1NonNegative(total - s.borrowAmount);
    Round1Monotone(s.borrowAmount, total);
  }

  /** With level payments the preview's monthly payment is the housing cost's monthly mortgage on the same loan. */
  lemma PreviewAgreesWithMortgage(s: LoanSettings)
    requires s.borrowAmount > 0.0 && s.termYears > 0 && s.interestRate != 0.0 && s.repaymentType == EqualPayment
    ensures LoanPreview(s).monthlyPayment == Calculations.MonthlyMortgage(s.borrowAmount, s.interestRate, s.termYears)
  {
  }

  /** With level payments at a positive rate, the unrounded monthly payment clears the loan in the term's months. */
  lemma PreviewPaymentRepaysLoan(s: LoanSettings)
    requires s.borrowAmount > 0.0 && s.termYears > 0 && s.interestRate > 0.0 && s.repaymentType == EqualPayment
    ensures var n := s.termYears * 12;
            Calculations.Owed(s.borrowAmount, MonthlyRate(s), Calculations.AnnuityPayment(s.borrowAmount, MonthlyRate(s), n), n) == 0.0
  {
    Calculations.AnnuityRepaysLoan(s.borrowAmount, MonthlyRate(s), s.termYears * 12);
  }

  /** The level-principal loop: interest on the remaining balance month by month. */
  method AccumulateInterest(balance: real, rate: real, principal: real, months: nat) returns (total: real)
    ensures total == InterestSum(balance, rate, principal, months)
  {
    total := 0.0;
    var remaining := balance;
    var i := 0;
    while i < months
      invariant 0 <= i <= months
      invariant total + InterestSum(remaining, rate, principal, months - i) == InterestSum(balance, rate, principal, months)
    {
      total := total + MonthlyInterest(remaining, rate);
      remaining := remaining - principal;
      i := i + 1;
    }
  }

  /** `calculatePreview` with its loop. */
  method CalculatePreview(s: LoanSettings) returns (r: Preview)
    ensures r == LoanPreview(s)
  {
    if s.borrowAmount <= 0.0 || s.termYears <= 0 {
      r := Preview(0.0, 0.0, 0.0);
    } else if s.interestRate == 0.0 {
      r := Preview(Round1(s.borrowAmount / s.termYears as real / 12.0), s.borrowAmount, 0.0);
    } else if s.repaymentType == EqualPayment {
      r := LevelPaymentPreview(s);
    } else {
      var interest := AccumulateInterest(s.borrowAmount, MonthlyRate(s), LevelMonthlyPrincipal(s), s.termYears * 12);
      r := LevelPrincipalPreview(s, interest);
    }
  }

  // ---------------------------------------------------------------------------
  // Applying and cancelling the loan calculation
  // ---------------------------------------------------------------------------

  /** One section's asset and liability tables. */
  datatype Tables = Tables(assets: seq<AssetItem>, liabilities: seq<LiabilityItem>)

  function HasLiabilityId(id: string): LiabilityItem -> bool
  {
    (l: LiabilityItem) => l.id == id
  }

  function HasAssetId(id: string): AssetItem -> bool
  {
    (a: AssetItem) => a.id == id
  }

  /** The cash asset: type cash, or a name containing 現金. */
  predicate IsCashAsset(a: AssetItem)
  {
    a.kind == "cash" || Contains(a.name, "現金")
  }

  function IsCash(): AssetItem -> bool
  {
    (a: AssetItem) => IsCashAsset(a)
  }

  /** The balance after the `k`-th year of the schedule, for the year `startYear + k`. */
  function BalanceAt(schedule: seq<Loans.Payment>, startYear: int): int -> real
  {
    (y: int) => if 0 <= y - startYear - 1 < |schedule| then schedule[y - startYear - 1].remainingBalance else 0.0
  }

  /** The liability's new amounts: the amount borrowed in the start year, then the balance after each year of the schedule. */
  function LoanAmounts(s: LoanSettings, schedule: seq<Loans.Payment>): (r: YearMap)
    ensures forall y :: y in r <==> s.startYear <= y <= s.startYear + |schedule|
    ensures s.startYear in r && r[s.startYear] == s.borrowAmount
    ensures forall k :: 0 <= k < |schedule| ==> r[s.startYear + k + 1] == schedule[k].remainingBalance
  {
    assert forall k :: 0 <= k < |schedule| ==> BalanceAt(schedule, s.startYear)(s.startYear + k + 1) == schedule[k].remainingBalance;
    Override(map[s.startYear := s.borrowAmount], s.startYear + 1, |schedule|, BalanceAt(schedule, s.startYear))
  }

  /** The schedule's `forEach`: the balances written year by year over the borrowed amount. */
  method WriteBalances(s: LoanSettings, schedule: seq<Loans.Payment>) returns (r: YearMap)
    ensures r == LoanAmounts(s, schedule)
  {
    r := FillYears(map[s.startYear := s.borrowAmount], s.startYear + 1, |schedule|, BalanceAt(schedule, s.startYear));
  }

  function RepaymentText(t: RepaymentType): string
  {
    match t
      case EqualPrincipal => "equal_principal"
      case EqualPayment => "equal_payment"
  }

  /** `${startYear}_${termYears}_${interestRate}_${repaymentType}_${borrowAmount}`, with `fmt` the number-to-text conversion. */
  function CalculationHash(s: LoanSettings, fmt: real -> string): string
  {
    IntText(s.startYear) + "_" + IntText(s.termYears) + "_" + fmt(s.interestRate) + "_" + RepaymentText(s.repaymentType)
    + "_" + fmt(s.borrowAmount)
  }

  /** A liability set up for the loan calculation. */
  function Calculated(s: LoanSettings, amounts: YearMap, hash: string): LiabilityItem -> LiabilityItem
  {
    (l: LiabilityItem) =>
      l.(amounts := amounts, startYear := s.startYear, interestRate := s.interestRate, termYears := s.termYears,
         repaymentType := Some(s.repaymentType), autoCalculate := true, originalAmount := s.borrowAmount,
         isCalculated := true, calculationHash := hash)
  }

  /** `amount` added to (or, negative, taken from) `year` of an asset, as `(amounts[year] || 0) + amount`. */
  function CashAdded(year: int, amount: real): AssetItem -> AssetItem
  {
    (a: AssetItem) => a.(amounts := a.amounts[year := Get(a.amounts, year) + amount])
  }

  /** `amount` taken from `year` of an asset, never below 0. */
  function CashTaken(year: int, amount: real): AssetItem -> AssetItem
  {
    (a: AssetItem) => a.(amounts := a.amounts[year := Max(0.0, Get(a.amounts, year) - amount)])
  }

  /** The first cash asset of a table, as `find`. */
  function CashIndex(assets: seq<AssetItem>): Option<nat>
  {
    FirstWhere(assets, IsCash())
  }

  /** `amount` added to `year` of every asset that has the id of the first cash asset; no change without a cash asset. */
  function CashMoved(assets: seq<AssetItem>, year: int, amount: real): (r: seq<AssetItem>)
    ensures |r| == |assets|
    ensures CashIndex(assets).None? ==> r == assets
    ensures CashIndex(assets).Some? ==>
              forall j :: 0 <= j < |assets| ==>
                r[j] == if assets[j].id == assets[CashIndex(assets).value].id then CashAdded(year, amount)(assets[j]) else assets[j]
  {
    match CashIndex(assets)
      case None => assets
      case Some(c) => MapWhere(assets, HasAssetId(assets[c].id), CashAdded(year, amount))
  }

  /**
   * `applyLoanCalculation`: every liability with the id takes the schedule's
   * balances and the loan settings; the cash asset gains the borrowed amount
   * in the start year.
   */
  function LoanApplied(t: Tables, id: string, s: LoanSettings, fmt: real -> string): (r: Tables)
    ensures id == "" ==> r == t
    ensures id != "" ==> r.assets == CashMoved(t.assets, s.startYear, s.borrowAmount)
    ensures |r.liabilities| == |t.liabilities|
    ensures forall j :: 0 <= j < |t.liabilities| ==>
              r.liabilities[j] == if id != "" && t.liabilities[j].id == id
                                  then Calculated(s, LoanAmounts(s, Loans.Schedule(TermsOf(s))), CalculationHash(s, fmt))(t.liabilities[j])
                                  else t.liabilities[j]
  {
    if id == "" then t
    else
      Tables(CashMoved(t.assets, s.startYear, s.borrowAmount),
             MapWhere(t.liabilities, HasLiabilityId(id), Calculated(s, LoanAmounts(s, Loans.Schedule(TermsOf(s))), CalculationHash(s, fmt))))
  }

  /**
   * A liability of the loan calculation holds the borrowed amount in the start
   * year and the schedule's balance after each year of the term in the years
   * after it, one per year of the term, none negative.
   */
  lemma AppliedBalances(t: Tables, id: string, s: LoanSettings, fmt: real -> string, j: nat)
    requires id != "" && j < |t.liabilities| && t.liabilities[j].id == id
    ensures var l := LoanApplied(t, id, s, fmt).liabilities[j];
            var schedule := Loans.Schedule(TermsOf(s));
            l.autoCalculate && l.isCalculated && l.originalAmount == s.borrowAmount
            && l.startYear == s.startYear && l.termYears == s.termYears && l.repaymentType == Some(s.repaymentType)
            && l.amounts[s.startYear] == s.borrowAmount
            && (forall y :: y in l.amounts <==> s.startYear <= y <= s.startYear + MaxInt(s.termYears, 0))
            && (forall k :: 0 <= k < |schedule| ==>
                  l.amounts[s.startYear + k + 1] == schedule[k].remainingBalance && schedule[k].remainingBalance >= 0.0)
  {
    var amounts := LoanAmounts(s, Loans.Schedule(TermsOf(s)));
    assert LoanApplied(t, id, s, fmt).liabilities[j] == Calculated(s, amounts, CalculationHash(s, fmt))(t.liabilities[j]);
    CalculatedBalances(s, CalculationHash(s, fmt), t.liabilities[j]);
  }

  /** The balances a liability takes from the loan calculation, whatever it held before. */
  lemma CalculatedBalances(s: LoanSettings, hash: string, item: LiabilityItem)
    ensures var schedule := Loans.Schedule(TermsOf(s));
            var l := Calculated(s, LoanAmounts(s, schedule), hash)(item);
            l.autoCalculate && l.isCalculated && l.originalAmount == s.borrowAmount
            && l.startYear == s.startYear && l.termYears == s.termYears && l.repaymentType == Some(s.repaymentType)
            && l.amounts[s.startYear] == s.borrowAmount
            && (forall y :: y in l.amounts <==> s.startYear <= y <= s.startYear + MaxInt(s.termYears, 0))
            && (forall k :: 0 <= k < |schedule| ==>
                  l.amounts[s.startYear + k + 1] == schedule[k].remainingBalance && schedule[k].remainingBalance >= 0.0)
  {
    var schedule := Loans.Schedule(TermsOf(s));
    assert Calculated(s, LoanAmounts(s, schedule), hash)(item).amounts == LoanAmounts(s, schedule);
  }

  /** The applied liability is repaid by schedule, on the settings' own loan terms. */
  lemma AppliedTerms(t: Tables, id: string, s: LoanSettings, fmt: real -> string, j: nat)
    requires id != "" && j < |t.liabilities| && t.liabilities[j].id == id
    requires s.borrowAmount > 0.0 && s.startYear != 0 && s.termYears != 0
    ensures var l := LoanApplied(t, id, s, fmt).liabilities[j];
            Loans.Repays(l) && Loans.TermsOf(l) == TermsOf(s)
  {
    var l := LoanApplied(t, id, s, fmt).liabilities[j];
    AppliedBalances(t, id, s, fmt, j);
    assert Get(l.amounts, l.startYear) == s.borrowAmount;
    assert Loans.Borrowed(l) == s.borrowAmount;
  }

  /**
   * Once applied with a positive amount, a non-zero start year and a
   * non-zero term, the projection repays the loan by the very schedule whose
   * balances the liability holds: each year of the term, up to the last
   * projected year, is charged that year's payment.
   */
  lemma AppliedLoanIsRepaid(t: Tables, id: string, s: LoanSettings, fmt: real -> string, j: nat, year: int, lastYear: int)
    requires id != "" && j < |t.liabilities| && t.liabilities[j].id == id
    requires s.borrowAmount > 0.0 && s.startYear != 0 && s.termYears != 0
    requires s.startYear < year <= s.startYear + s.termYears && year <= lastYear
    ensures var l := LoanApplied(t, id, s, fmt).liabilities[j];
            Loans.Repays(l) && Loans.TermsOf(l) == TermsOf(s)
            && Loans.Contribution(l, year, lastYear) == Loans.Schedule(TermsOf(s))[year - s.startYear - 1].payment
  {
    AppliedTerms(t, id, s, fmt, j);
    assert |Loans.Schedule(TermsOf(s))| == s.termYears;
  }

  /** The liability cleared by `cancelLoanCalculation`. */
  function Uncalculated(): LiabilityItem -> LiabilityItem
  {
    (l: LiabilityItem) =>
      l.(amounts := map[], autoCalculate := false, startYear := 0, originalAmount := 0.0, isCalculated := false, calculationHash := "")
  }

  /** Whether `cancelLoanCalculation` acts: the first liability with the id is auto-calculated with a start year and an amount. */
  predicate Cancellable(liabilities: seq<LiabilityItem>, id: string)
  {
    var i := FirstWhere(liabilities, HasLiabilityId(id));
    i.Some? && liabilities[i.value].autoCalculate && liabilities[i.value].startYear != 0 && liabilities[i.value].originalAmount != 0.0
  }

  /**
   * `cancelLoanCalculation`: every liability with the id loses its amounts
   * and its loan calculation, and the cash asset gives the borrowed amount
   * back in the start year, never going below 0. Nothing changes unless the
   * first liability with the id is auto-calculated with a start year and an
   * amount.
   */
  function LoanCancelled(t: Tables, id: string): (r: Tables)
    ensures !Cancellable(t.liabilities, id) ==> r == t
    ensures |r.assets| == |t.assets| && |r.liabilities| == |t.liabilities|
    ensures Cancellable(t.liabilities, id) ==>
              var item := t.liabilities[FirstWhere(t.liabilities, HasLiabilityId(id)).value];
              (CashIndex(t.assets).None? ==> r.assets == t.assets)
              && (CashIndex(t.assets).Some? ==>
                    forall j :: 0 <= j < |t.assets| ==>
                      r.assets[j] == if t.assets[j].id == t.assets[CashIndex(t.assets).value].id
                                     then CashTaken(item.startYear, item.originalAmount)(t.assets[j]) else t.assets[j])
              && forall j :: 0 <= j < |t.liabilities| ==>
                   r.liabilities[j] == if t.liabilities[j].id == id then Uncalculated()(t.liabilities[j]) else t.liabilities[j]
  {
    if !Cancellable(t.liabilities, id) then t
    else
      var item := t.liabilities[FirstWhere(t.liabilities, HasLiabilityId(id)).value];
      var liabilities := MapWhere(t.liabilities, HasLiabilityId(id), Uncalculated());
      match CashIndex(t.assets)
        case None => Tables(t.assets, liabilities)
        case Some(c) => Tables(MapWhere(t.assets, HasAssetId(t.assets[c].id), CashTaken(item.startYear, item.originalAmount)), liabilities)
  }

  /** Tables whose lines have the same type and name in the same order have the same cash asset. */
  lemma {:induction false} CashIndexSameLines(xs: seq<AssetItem>, ys: seq<AssetItem>)
    requires |xs| == |ys| && forall i :: 0 <= i < |xs| ==> xs[i].kind == ys[i].kind && xs[i].name == ys[i].name
    ensures CashIndex(ys) == CashIndex(xs)
    decreases |xs|
  {
    if xs != [] {
      assert IsCash()(xs[0]) == IsCash()(ys[0]);
      if !IsCash()(xs[0]) {
        CashIndexSameLines(xs[1..], ys[1..]);
      }
    }
  }

  /** Tables whose lines have the same ids in the same order find the same first line of an id. */
  lemma {:induction false} FirstLiabilitySameIds(xs: seq<LiabilityItem>, ys: seq<LiabilityItem>, id: string)
    requires |xs| == |ys| && forall i :: 0 <= i < |xs| ==> xs[i].id == ys[i].id
    ensures FirstWhere(ys, HasLiabilityId(id)) == FirstWhere(xs, HasLiabilityId(id))
    decreases |xs|
  {
    if xs != [] {
      assert HasLiabilityId(id)(xs[0]) == HasLiabilityId(id)(ys[0]);
      if !HasLiabilityId(id)(xs[0]) {
        FirstLiabilitySameIds(xs[1..], ys[1..], id);
      }
    }
  }

  /**
   * Applying a loan calculation and cancelling it again returns the cash
   * asset's start year to what it held, floored at 0, but leaves the
   * liability with no amounts at all rather than the ones it had.
   */
  lemma ApplyThenCancel(t: Tables, id: string, s: LoanSettings, fmt: real -> string, j: nat, a: nat)
    requires id != "" && FirstWhere(t.liabilities, HasLiabilityId(id)).Some?
    requires s.startYear != 0 && s.borrowAmount != 0.0
    requires j < |t.liabilities| && t.liabilities[j].id == id
    requires CashIndex(t.assets).Some? && a < |t.assets| && t.assets[a].id == t.assets[CashIndex(t.assets).value].id
    ensures var r := LoanCancelled(LoanApplied(t, id, s, fmt), id);
            r.liabilities[j].amounts == map[] && !r.liabilities[j].autoCalculate && !r.liabilities[j].isCalculated
            && Get(r.assets[a].amounts, s.startYear) == Max(0.0, Get(t.assets[a].amounts, s.startYear))
            && forall y :: y != s.startYear ==> Get(r.assets[a].amounts, y) == Get(t.assets[a].amounts, y)
  {
    var applied := LoanApplied(t, id, s, fmt);
    var i := FirstWhere(t.liabilities, HasLiabilityId(id)).value;
    FirstLiabilitySameIds(t.liabilities, applied.liabilities, id);
    CashIndexSameLines(t.assets, applied.assets);
    assert applied.liabilities[i].startYear == s.startYear && applied.liabilities[i].originalAmount == s.borrowAmount;
    assert Cancellable(applied.liabilities, id);
    assert applied.assets[a] == CashAdded(s.startYear, s.borrowAmount)(t.assets[a]);
  }

  // ---------------------------------------------------------------------------
  // Manual edits and new lines
  // ---------------------------------------------------------------------------

  function EnteredAmount(year: int, value: real): LiabilityItem -> LiabilityItem
  {
    (l: LiabilityItem) => l.(amounts := l.amounts[year := Abs(value)])
  }

  /** Whether an edit of `year` is ignored: the first liability with the id is auto-calculated with a start year, and `year` is not it. */
  predicate EditBlocked(liabilities: seq<LiabilityItem>, id: string, year: int)
  {
    var i := FirstWhere(liabilities, HasLiabilityId(id));
    i.Some? && liabilities[i.value].autoCalculate && liabilities[i.value].startYear != 0 && year != liabilities[i.value].startYear
  }

  /**
   * `handleLiabilityAmountChange`: the magnitude of the value is stored for
   * `year` on every liability with the id, unless the edit is blocked.
   */
  function LiabilityAmountChanged(liabilities: seq<LiabilityItem>, id: string, year: int, value: real): (r: seq<LiabilityItem>)
    ensures |r| == |liabilities|
    ensures EditBlocked(liabilities, id, year) ==> r == liabilities
    ensures forall j :: 0 <= j < |liabilities| && liabilities[j].id != id ==> r[j] == liabilities[j]
    ensures !EditBlocked(liabilities, id, year) ==>
              forall j :: 0 <= j < |liabilities| && liabilities[j].id == id ==> r[j] == EnteredAmount(year, value)(liabilities[j])
  {
    if EditBlocked(liabilities, id, year) then liabilities
    else MapWhere(liabilities, HasLiabilityId(id), EnteredAmount(year, value))
  }

  /**
   * An accepted edit leaves a non-negative amount in `year` and every other
   * year as it was; on the start year of a calculated loan it sets the
   * amount the projection's schedule repays.
   */
  lemma LiabilityEditStored(liabilities: seq<LiabilityItem>, id: string, year: int, value: real, j: nat)
    requires !EditBlocked(liabilities, id, year) && j < |liabilities| && liabilities[j].id == id
    ensures var l := LiabilityAmountChanged(liabilities, id, year, value)[j];
            l.amounts[year] == Abs(value) && l.amounts[year] >= 0.0
            && (forall y :: y != year ==> Get(l.amounts, y) == Get(liabilities[j].amounts, y))
            && (year == l.startYear ==> Loans.Borrowed(l) == Abs(value))
  {
  }

  /** Only the start year of an auto-calculated loan with a start year can be edited. */
  lemma CalculatedLoanEditable(liabilities: seq<LiabilityItem>, id: string, year: int, value: real, i: nat)
    requires FirstWhere(liabilities, HasLiabilityId(id)) == Some(i)
    requires liabilities[i].autoCalculate && liabilities[i].startYear != 0
    ensures LiabilityAmountChanged(liabilities, id, year, value) != liabilities ==> year == liabilities[i].startYear
  {
  }

  /** `addAssetItem`: an empty line "その他" of type other at the end, not an investment, with the next id. */
  function AssetAdded(items: seq<AssetItem>): (r: seq<AssetItem>)
    ensures |r| == |items| + 1 && r[..|items|] == items
    ensures r[|items|] == AssetItem(ItemIds.NextIdOrZero(ItemIds.Ids(items, (l: AssetItem) => l.id)), "その他", "other", "asset", map[], false)
  {
    items + [AssetItem(ItemIds.NextIdOrZero(ItemIds.Ids(items, (l: AssetItem) => l.id)), "その他", "other", "asset", map[], false)]
  }

  /** The new asset's id is numeric and differs from every id of the table, numeric or not. */
  lemma AssetAddedFresh(items: seq<AssetItem>)
    ensures NumberOf(AssetAdded(items)[|items|].id).Some?
    ensures forall i :: 0 <= i < |items| ==> items[i].id != AssetAdded(items)[|items|].id
  {
    ItemIds.NextIdOrZeroFresh(ItemIds.Ids(items, (l: AssetItem) => l.id));
  }
}
