/**
 * Japanese take-home-pay and housing-cost arithmetic: the employment income
 * deduction, the progressive national income tax, social insurance, the 10%
 * resident tax, the annuity mortgage payment, yearly housing cost, the
 * standard-remuneration grade table and the older stand-alone pension
 * estimate. Amounts are in 万円 except where a name says yen.
 */
module Calculations {
  import opened Money
  import opened SimulatorTypes

  // ---------------------------------------------------------------------------
  // Employment income deduction
  // ---------------------------------------------------------------------------

  /**
   * The employment income deduction for a gross salary in 万円: 30% of the
   * salary plus 80,000 yen, kept between 550,000 and 1,950,000 yen, floored
   * to whole 万円; salaries above 8,500,000 yen get the 195 万円 ceiling.
   */
  function SalaryDeduction(annualIncome: real): (r: real)
    ensures 55.0 <= r <= 195.0
    ensures IsWhole(r)
    ensures annualIncome * 10000.0 > 8500000.0 ==> r == 195.0
  {
    var yen := annualIncome * 10000.0;
    if yen <= 8500000.0 then
      Floor(Min(Max(yen * 0.3 + 80000.0, 550000.0), 1950000.0) / 10000.0)
    else
      195.0
  }

  lemma {:induction false} SalaryDeductionMonotone(x: real, y: real)
    requires x <= y
    ensures SalaryDeduction(x) <= SalaryDeduction(y)
  {
    var dx := Min(Max(x * 10000.0 * 0.3 + 80000.0, 550000.0), 1950000.0) / 10000.0;
    if y * 10000.0 <= 8500000.0 {
      var dy := Min(Max(y * 10000.0 * 0.3 + 80000.0, 550000.0), 1950000.0) / 10000.0;
      assert dx <= dy;
      assert dx.Floor <= dy.Floor;
    }
  }

  // ---------------------------------------------------------------------------
  // Income tax
  // ---------------------------------------------------------------------------

  /** An upper bound of a bracket or grade; `Unbounded` is JavaScript's Infinity. */
  datatype Bound = Finite(value: real) | Unbounded

  predicate AtMost(x: real, b: Bound) { b.Unbounded? || x <= b.value }

  predicate Below(x: real, b: Bound) { b.Unbounded? || x < b.value }

  /** One row of the quick-calculation income tax table (amounts in yen). */
  datatype Bracket = Bracket(limit: Bound, rate: real, deduction: real)

  const TaxBrackets: seq<Bracket> := [
    Bracket(Finite(1950000.0), 0.05, 0.0),
    Bracket(Finite(3300000.0), 0.10, 97500.0),
    Bracket(Finite(6950000.0), 0.20, 427500.0),
    Bracket(Finite(9000000.0), 0.23, 636000.0),
    Bracket(Finite(18000000.0), 0.33, 1536000.0),
    Bracket(Finite(40000000.0), 0.40, 2796000.0),
    Bracket(Unbounded, 0.45, 4796000.0)
  ]

  /** `brackets.find(b => yen <= b.limit)`: the index of the first bracket whose limit admits `yen`. */
  function BracketIndex(yen: real): (i: nat)
    ensures i < |TaxBrackets|
    ensures AtMost(yen, TaxBrackets[i].limit)
    ensures forall j :: 0 <= j < i ==> !AtMost(yen, TaxBrackets[j].limit)
  {
    if yen <= 1950000.0 then 0
    else if yen <= 3300000.0 then 1
    else if yen <= 6950000.0 then 2
    else if yen <= 9000000.0 then 3
    else if yen <= 18000000.0 then 4
    else if yen <= 40000000.0 then 5
    else 6
  }

  /** The tax in yen that bracket `i`'s formula gives for `yen`. */
  function Piece(i: nat, yen: real): real
    requires i < |TaxBrackets|
  {
    yen * TaxBrackets[i].rate - TaxBrackets[i].deduction
  }

  /**
   * The bracket lookup agrees with the progressive schedule written as a
   * maximum: the bracket the lookup selects gives the largest of the seven
   * linear formulas, so the tax is continuous at every bracket limit.
   */
  lemma SelectedBracketIsMaximum(yen: real, j: nat)
    requires j < |TaxBrackets|
    ensures Piece(j, yen) <= Piece(BracketIndex(yen), yen)
  {
  }

  /** Income tax in whole 万円 on taxable income in 万円. */
  function IncomeTax(taxableIncome: real): (r: real)
    ensures IsWhole(r)
    ensures taxableIncome >= 0.0 ==> r >= 0.0
  {
    var yen := taxableIncome * 10000.0;
    var i := BracketIndex(yen);
    NonNegativeTax(yen);
    Floor(Floor(Piece(i, yen)) / 10000.0)
  }

  lemma NonNegativeTax(yen: real)
    ensures yen >= 0.0 ==> Piece(BracketIndex(yen), yen) >= 0.0
  {
    if yen >= 0.0 {
      SelectedBracketIsMaximum(yen, 0);
    }
  }

  lemma {:induction false} IncomeTaxMonotone(x: real, y: real)
    requires x <= y
    ensures IncomeTax(x) <= IncomeTax(y)
  {
    var xi, yi := BracketIndex(x * 10000.0), BracketIndex(y * 10000.0);
    assert Piece(xi, x * 10000.0) <= Piece(xi, y * 10000.0);
    SelectedBracketIsMaximum(y * 10000.0, xi);
    var px, py := Piece(xi, x * 10000.0), Piece(yi, y * 10000.0);
    assert px.Floor <= py.Floor;
    assert (px.Floor as real / 10000.0).Floor <= (py.Floor as real / 10000.0).Floor;
  }

  /** 15% of gross salary below 850 万円, 7.7% from there on. */
  function SocialInsuranceRate(annualIncome: real): (r: real)
    ensures annualIncome < 850.0 <==> r == 0.15
    ensures annualIncome >= 850.0 <==> r == 0.077
  {
    if annualIncome < 850.0 then 0.15 else 0.077
  }


  /** Social insurance in whole 万円: the rate applied to the gross salary, for the insured only. */
  function SocialInsurance(annualIncome: real, occupation: Occupation): (r: real)
    ensures IsWhole(r)
    ensures !HasEmployeePension(occupation) ==> r == 0.0
    ensures HasEmployeePension(occupation) ==> r <= annualIncome * SocialInsuranceRate(annualIncome) < r + 1.0
    ensures annualIncome >= 0.0 ==> r >= 0.0
  {
    if HasEmployeePension(occupation) then
      var rate := SocialInsuranceRate(annualIncome);
      assert annualIncome >= 0.0 ==> annualIncome * rate >= 0.0;
      Floor(annualIncome * rate)
    else 0.0
  }

  /** Resident tax: 10% of the taxable income, rounded down to whole 万円. */
  function ResidentTax(taxableIncome: real): (r: real)
    ensures IsWhole(r)
    ensures r <= taxableIncome * 0.10 < r + 1.0
    ensures taxableIncome >= 0.0 ==> r >= 0.0
  {
    Floor(taxableIncome * 0.10)
  }

  // ---------------------------------------------------------------------------
  // Take-home pay
  // ---------------------------------------------------------------------------

  datatype Deductions = Deductions(
    salaryDeduction: real,
    socialInsurance: real,
    incomeTax: real,
    residentTax: real,
    total: real)

  datatype NetIncomeResult = NetIncomeResult(netIncome: real, deductions: Deductions)

  /**
   * Take-home pay for a gross salary in 万円. The self-employed and
   * homemakers keep the gross amount; employees pay social insurance only
   * when insured, and everyone else pays income tax and 10% resident tax on
   * the income left after the employment deduction and social insurance.
   */
  function NetIncome(annualIncome: real, occupation: Occupation): (r: NetIncomeResult)
    ensures r.netIncome == annualIncome - r.deductions.total
    ensures r.deductions.total == r.deductions.socialInsurance + r.deductions.incomeTax + r.deductions.residentTax
    ensures occupation == SelfEmployed || occupation == Homemaker ==>
              r == NetIncomeResult(annualIncome, Deductions(0.0, 0.0, 0.0, 0.0, 0.0))
    ensures occupation == PartTimeWithoutPension ==> r.deductions.socialInsurance == 0.0
    ensures occupation != SelfEmployed && occupation != Homemaker ==>
              var d := r.deductions;
              var taxable := Max(0.0, annualIncome - (d.salaryDeduction + d.socialInsurance));
              d.salaryDeduction == SalaryDeduction(annualIncome)
              && d.socialInsurance == SocialInsurance(annualIncome, occupation)
              && d.incomeTax == IncomeTax(taxable) && d.residentTax == ResidentTax(taxable)
    ensures IsWhole(r.deductions.socialInsurance) && IsWhole(r.deductions.incomeTax) && IsWhole(r.deductions.residentTax)
  {
    if occupation == SelfEmployed || occupation == Homemaker then
      NetIncomeResult(annualIncome, Deductions(0.0, 0.0, 0.0, 0.0, 0.0))
    else
      var salaryDeduction := SalaryDeduction(annualIncome);
      var socialInsurance := SocialInsurance(annualIncome, occupation);
      var taxable := Max(0.0, annualIncome - (salaryDeduction + socialInsurance));
      var incomeTax := IncomeTax(taxable);
      var residentTax := ResidentTax(taxable);
      var total := socialInsurance + incomeTax + residentTax;
      NetIncomeResult(annualIncome - total, Deductions(salaryDeduction, socialInsurance, incomeTax, residentTax, total))
  }

  /** On a non-negative salary no deduction is negative, so take-home pay never exceeds the gross. */
  lemma NetIncomeDeductionsNonNegative(annualIncome: real, occupation: Occupation)
    requires annualIncome >= 0.0
    ensures var r := NetIncome(annualIncome, occupation);
            r.deductions.socialInsurance >= 0.0 && r.deductions.incomeTax >= 0.0
            && r.deductions.residentTax >= 0.0 && r.netIncome <= annualIncome
            && IsWhole(r.deductions.total)
  {
    if occupation != SelfEmployed && occupation != Homemaker {
      var taxable := Max(0.0, annualIncome - (SalaryDeduction(annualIncome) + SocialInsurance(annualIncome, occupation)));
      assert NetIncome(annualIncome, occupation).deductions.incomeTax == IncomeTax(taxable);
      assert NetIncome(annualIncome, occupation).deductions.residentTax == ResidentTax(taxable);
    }
    var d := NetIncome(annualIncome, occupation).deductions;
    WholeSum(d.socialInsurance, d.incomeTax);
    WholeSum(d.socialInsurance + d.incomeTax, d.residentTax);
  }

  /** A company employee earning 500 万円 takes home 383 万円. */
  lemma NetIncomeExample()
    ensures NetIncome(500.0, CompanyEmployee).netIncome == 383.0
    ensures NetIncome(500.0, CompanyEmployee).deductions
            == Deductions(158.0, 75.0, 16.0, 26.0, 117.0)
  {
    assert SalaryDeduction(500.0) == 158.0;
    assert SocialInsurance(500.0, CompanyEmployee) == 75.0 by {
      assert 500.0 * SocialInsuranceRate(500.0) == 75.0;
    }
    assert IncomeTax(267.0) == 16.0 by {
      assert BracketIndex(2670000.0) == 1;
    }
    assert ResidentTax(267.0) == 26.0 by {
      assert 267.0 * 0.10 == 26.7;
    }
  }

  /** Take-home pay after raising the base salary by `raiseRate` percent a year since `startYear`. */
  function NetIncomeWithRaise(baseAnnualIncome: real, occupation: Occupation, raiseRate: real, year: int, startYear: int): (r: real)
    ensures year == startYear ==> r == NetIncome(Floor(baseAnnualIncome), occupation).netIncome
    ensures exists g :: IsWhole(g) && r == NetIncome(g, occupation).netIncome
  {
    var raised := Floor(baseAnnualIncome * Factor(1.0 + raiseRate / 100.0, year - startYear));
    NetIncome(raised, occupation).netIncome
  }

  // ---------------------------------------------------------------------------
  // Mortgage and housing
  // ---------------------------------------------------------------------------

  /**
   * The level payment that repays `principal` over `n` periods at rate
   * `periodRate` per period (the annuity formula). The formula divides by
   * zero when `(1 + periodRate)^n == 1`; JavaScript yields Infinity or NaN
   * there and this model 0.
   */
  function AnnuityPayment(principal: real, periodRate: real, n: nat): (r: real)
    ensures Pow(1.0 + periodRate, n) != 1.0 ==>
              r * (Pow(1.0 + periodRate, n) - 1.0) == principal * (periodRate * Pow(1.0 + periodRate, n))
  {
    var g := Pow(1.0 + periodRate, n);
    if g == 1.0 then 0.0 else principal * (periodRate * g) / (g - 1.0)
  }

  /** What is still owed after `k` periods of paying `payment`, interest accruing first. */
  function Owed(principal: real, periodRate: real, payment: real, k: nat): real
  {
    if k == 0 then principal else Owed(principal, periodRate, payment, k - 1) * (1.0 + periodRate) - payment
  }

  /**
   * `owed` is what a loan of `principal` at rate `q` comes to once the
   * periods paid so far have grown money by the factor `growth`, written
   * multiplied by `q` so that it also holds at rate zero.
   */
  predicate OwedInClosedForm(owed: real, principal: real, q: real, payment: real, growth: real)
  {
    owed * q == principal * growth * q - payment * (growth - 1.0)
  }

  lemma {:induction false} OwedClosedForm(principal: real, periodRate: real, payment: real, k: nat)
    ensures OwedInClosedForm(Owed(principal, periodRate, payment, k), principal, periodRate, payment, Pow(1.0 + periodRate, k))
  {
    if k > 0 {
      OwedClosedForm(principal, periodRate, payment, k - 1);
      var b, p, o := 1.0 + periodRate, Pow(1.0 + periodRate, k - 1), Owed(principal, periodRate, payment, k - 1);
      var pk, ok := Pow(1.0 + periodRate, k), Owed(principal, periodRate, payment, k);
      assert pk == b * p;
      assert ok == o * b - payment;
      OwedStep(principal, periodRate, payment, b, p, o, pk, ok);
    }
  }

  /** One period of interest and payment applied to the closed form of the balance before it. */
  lemma OwedStep(principal: real, q: real, payment: real, b: real, p: real, o: real, pk: real, ok: real)
    requires b == 1.0 + q && pk == b * p && ok == o * b - payment
    requires OwedInClosedForm(o, principal, q, payment, p)
    ensures OwedInClosedForm(ok, principal, q, payment, pk)
  {
    assert (o * b - payment) * q == (o * q) * b - payment * q;
    assert (principal * p * q - payment * (p - 1.0)) * b == principal * (b * p) * q - payment * ((p - 1.0) * b);
    assert (p - 1.0) * b + q == b * p - 1.0;
  }

  lemma ZeroProduct(x: real, y: real)
    requires x * y == 0.0 && y != 0.0
    ensures x == 0.0
  {
    assert x == (x * y) / y;
  }

  /** Paying the annuity payment every period leaves nothing owed after the last one. */
  lemma AnnuityRepaysLoan(principal: real, periodRate: real, n: nat)
    requires periodRate > 0.0 && n >= 1
    ensures Owed(principal, periodRate, AnnuityPayment(principal, periodRate, n), n) == 0.0
  {
    var g := Pow(1.0 + periodRate, n);
    PowAboveOne(1.0 + periodRate, n);
    var m := AnnuityPayment(principal, periodRate, n);
    assert m * (g - 1.0) == principal * (periodRate * g);
    OwedClosedForm(principal, periodRate, m, n);
    var o := Owed(principal, periodRate, m, n);
    assert o * periodRate == principal * g * periodRate - m * (g - 1.0);
    assert o * periodRate == 0.0;
    ZeroProduct(o, periodRate);
  }

  /**
   * `n·r·(1+r)^n >= (1+r)^n - 1` for a non-negative rate: going from n to n+1
   * periods adds `(1+r)^n·(n+1)·r²` to the gap.
   */
  lemma {:induction false} AnnuityGap(r: real, n: nat)
    requires r >= 0.0
    ensures (n as real) * (r * Pow(1.0 + r, n)) >= Pow(1.0 + r, n) - 1.0
  {
    if n > 0 {
      AnnuityGap(r, n - 1);
      var f := Pow(1.0 + r, n - 1);
      var k := (n - 1) as real;
      PowAtLeastOne(1.0 + r, n - 1);
      assert Pow(1.0 + r, n) == (1.0 + r) * f;
      assert (k + 1.0) * r * ((1.0 + r) * f) - ((1.0 + r) * f - 1.0)
             == (k * r * f - (f - 1.0)) + f * ((k + 1.0) * (r * r));
      assert f * ((k + 1.0) * (r * r)) >= 0.0;
    }
  }

  /** `x·e >= p·e` with `e > 0` gives `x >= p`. */
  lemma CancelPositive(x: real, p: real, e: real, q: real)
    requires e > 0.0 && x * e == q && q >= p * e
    ensures x >= p
  {
    assert (x - p) * e == x * e - p * e;
  }

  /** Scaling `m·e = p·c` by `k`. */
  lemma ScaledEquation(m: real, k: real, e: real, p: real, c: real)
    requires m * e == p * c
    ensures (m * k) * e == p * (k * c)
  {
    assert (m * k) * e == k * (m * e);
    assert p * (k * c) == k * (p * c);
  }

  /** At a positive rate the n annuity payments add up to at least the principal: the total holds non-negative interest. */
  lemma AnnuityTotalCoversPrincipal(principal: real, periodRate: real, n: nat)
    requires principal >= 0.0 && periodRate > 0.0 && n >= 1
    ensures AnnuityPayment(principal, periodRate, n) * (n as real) >= principal
  {
    var g := Pow(1.0 + periodRate, n);
    var m, k := AnnuityPayment(principal, periodRate, n), n as real;
    PowAboveOne(1.0 + periodRate, n);
    AnnuityGap(periodRate, n);
    ScaledEquation(m, k, g - 1.0, principal, periodRate * g);
    MulMonotone(principal, g - 1.0, k * (periodRate * g));
    CancelPositive(m * k, principal, g - 1.0, principal * (k * (periodRate * g)));
  }

  /** The monthly mortgage payment in 万円 for a loan in 万円, a yearly rate in percent and a term in years. */
  function MonthlyMortgage(loanAmount: real, interestRate: real, termYears: int): (r: real)
    requires termYears >= 1
    ensures interestRate == 0.0 ==> r * (termYears * 12) as real == loanAmount
    ensures interestRate != 0.0 ==> r == Round1(AnnuityPayment(loanAmount, interestRate / 100.0 / 12.0, termYears * 12))
  {
    var monthlyRate := interestRate / 100.0 / 12.0;
    var n := termYears * 12;
    if monthlyRate == 0.0 then loanAmount / n as real
    else Round1(AnnuityPayment(loanAmount, monthlyRate, n))
  }

  /**
   * A renter's cost for `year`: twelve months' rent escalated yearly from
   * `nowYear` (the calendar year the program runs in), plus one renewal fee
   * per renewal interval elapsed since then.
   */
  function RentCost(rent: RentInfo, year: int, nowYear: int): (r: real)
    ensures year == nowYear ==> r == Round1(rent.monthlyRent * 12.0)
    ensures IsTenth(r)
  {
    var yearsSinceStart := year - nowYear;
    var annual := rent.monthlyRent * 12.0 * Factor(1.0 + rent.annualIncreaseRate / 100.0, yearsSinceStart);
    Round1(annual + RenewalCost(rent, yearsSinceStart))
  }

  /** One renewal fee per whole renewal interval elapsed; none when the interval is 0. */
  function RenewalCost(rent: RentInfo, yearsSinceStart: int): (r: real)
    ensures rent.renewalInterval == 0.0 || yearsSinceStart == 0 ==> r == 0.0
  {
    if rent.renewalInterval == 0.0 then 0.0
    else Floor(yearsSinceStart as real / rent.renewalInterval) * rent.renewalFee
  }

  /**
   * The renter's cost as the program writes it: the renewal count divides the
   * years elapsed by the renewal interval with no guard, so an interval of 0
   * makes the count 0/0 (NaN) in the current year and an infinity afterwards,
   * and the sum is not a finite number. `None` stands for that non-finite
   * result; every other interval gives `RentCost`.
   */
  function RentCostAsWritten(rent: RentInfo, year: int, nowYear: int): (r: Option<real>)
    ensures r.None? <==> rent.renewalInterval == 0.0
    ensures r.Some? ==> r.value == RentCost(rent, year, nowYear)
  {
    if rent.renewalInterval == 0.0 then None else Some(RentCost(rent, year, nowYear))
  }

  /**
   * A renter with an interval of 0, which the profile schema accepts: in the
   * current year the program's cost is not a number, while the corrected cost
   * is twelve months' rent.
   */
  lemma RentZeroIntervalNotFinite(rent: RentInfo, nowYear: int)
    requires rent.renewalInterval == 0.0
    ensures RentCostAsWritten(rent, nowYear, nowYear).None?
    ensures RentCost(rent, nowYear, nowYear) == Round1(rent.monthlyRent * 12.0)
  {
  }

  /** Yearly maintenance of an owned home: a percentage of the purchase price. */
  function Maintenance(own: OwnInfo): real
  {
    own.purchasePrice * (own.maintenanceCostRate / 100.0)
  }

  /**
   * An owner's cost for `year`: nothing before the purchase year, twelve
   * mortgage payments plus maintenance while the loan runs, maintenance alone after it.
   */
  function OwnCost(own: OwnInfo, year: int): (r: real)
    ensures year < own.purchaseYear ==> r == 0.0
    ensures own.purchaseYear <= year && year >= own.purchaseYear + own.loanTermYears ==> r == Maintenance(own)
    ensures own.purchaseYear <= year < own.purchaseYear + own.loanTermYears ==>
              r == Round1(MonthlyMortgage(own.loanAmount, own.interestRate, own.loanTermYears) * 12.0 + Maintenance(own))
  {
    if year < own.purchaseYear then 0.0
    else if year >= own.purchaseYear + own.loanTermYears then Maintenance(own)
    else Round1(MonthlyMortgage(own.loanAmount, own.interestRate, own.loanTermYears) * 12.0 + Maintenance(own))
  }

  /** Yearly housing cost in 万円 for `year`: the cost of the chosen tenure, 0 when its details are missing. */
  function HousingExpense(h: HousingInfo, year: int, nowYear: int): (r: real)
    ensures h.kind == Rent ==> r == (if h.rent.Some? then RentCost(h.rent.value, year, nowYear) else 0.0)
    ensures h.kind == Own ==> r == (if h.own.Some? then OwnCost(h.own.value, year) else 0.0)
  {
    if h.kind == Rent && h.rent.Some? then RentCost(h.rent.value, year, nowYear)
    else if h.kind == Own && h.own.Some? then OwnCost(h.own.value, year)
    else 0.0
  }

  // ---------------------------------------------------------------------------
  // Standard remuneration grades
  // ---------------------------------------------------------------------------

  /** A grade of the standard monthly remuneration table: salaries in `[min, max)` map to `amount` (yen). */
  datatype Grade = Grade(min: real, max: Bound, amount: real)

  predicate InGrade(g: Grade, x: real) { x >= g.min && Below(x, g.max) }

  /** `table.find(g => x >= g.min && x < g.max)`, as the index of the first match. */
  function FindGrade(table: seq<Grade>, x: real): (r: Option<nat>)
    ensures r.Some? ==> (r.value < |table| && InGrade(table[r.value], x)
                         && forall j :: 0 <= j < r.value ==> !InGrade(table[j], x))
    ensures r.None? ==> forall j :: 0 <= j < |table| ==> !InGrade(table[j], x)
  {
    if table == [] then None
    else if InGrade(table[0], x) then Some(0)
    else match FindGrade(table[1..], x)
      case None => None
      case Some(k) => Some(k + 1)
  }

  /**
   * Standard remuneration for a monthly salary in yen: 0 for no salary, the
   * amount of the grade containing the salary, the lowest grade's amount
   * below the table and the highest grade's amount above it.
   */
  function LookupRemuneration(table: seq<Grade>, monthlySalary: real): (r: real)
    requires |table| > 0
    ensures monthlySalary <= 0.0 ==> r == 0.0
    ensures monthlySalary > 0.0 ==> exists i :: 0 <= i < |table| && r == table[i].amount
    ensures monthlySalary > 0.0 ==>
              forall i :: (0 <= i < |table| && InGrade(table[i], monthlySalary)
                           && forall j :: 0 <= j < i ==> !InGrade(table[j], monthlySalary)) ==> r == table[i].amount
    ensures monthlySalary > 0.0 && (forall j :: 0 <= j < |table| ==> !InGrade(table[j], monthlySalary)) ==>
              r == (if monthlySalary < table[0].min then table[0].amount else table[|table| - 1].amount)
  {
    if monthlySalary <= 0.0 then 0.0
    else match FindGrade(table, monthlySalary)
      case Some(i) => table[i].amount
      case None => if monthlySalary < table[0].min then table[0].amount else table[|table| - 1].amount
  }

  /** Grades that tile `[table[0].min, ∞)` without gaps or overlaps. */
  predicate Contiguous(table: seq<Grade>)
  {
    && |table| > 0
    && (forall i :: 0 <= i < |table| - 1 ==> table[i].max == Finite(table[i + 1].min) && table[i].min < table[i + 1].min)
    && table[|table| - 1].max.Unbounded?
  }

  /** In a contiguous table a salary at or above the first minimum lies in exactly one grade. */
  lemma {:induction false} ContiguousGradeExists(table: seq<Grade>, x: real)
    requires Contiguous(table) && x >= table[0].min
    ensures FindGrade(table, x).Some?
  {
    if !InGrade(table[0], x) {
      assert |table| > 1;
      var rest := table[1..];
      assert Contiguous(rest) by {
        forall i | 0 <= i < |rest| - 1 ensures rest[i].max == Finite(rest[i + 1].min) && rest[i].min < rest[i + 1].min {
          assert rest[i] == table[i + 1] && rest[i + 1] == table[i + 2];
        }
      }
      ContiguousGradeExists(rest, x);
    }
  }

  lemma {:induction false} ContiguousGradeUnique(table: seq<Grade>, x: real, i: nat, j: nat)
    requires Contiguous(table) && i < |table| && j < |table|
    requires InGrade(table[i], x) && InGrade(table[j], x)
    ensures i == j
  {
    if i < j {
      MinsIncrease(table, i + 1, j);
    } else if j < i {
      MinsIncrease(table, j + 1, i);
    }
  }

  lemma {:induction false} MinsIncrease(table: seq<Grade>, i: nat, j: nat)
    requires Contiguous(table) && 1 <= i <= j < |table|
    ensures table[i - 1].max == Finite(table[i].min) && table[i].min <= table[j].min
    decreases j - i
  {
    if i < j {
      MinsIncrease(table, i + 1, j);
    }
  }

  /** On a contiguous table no grade holds a salary below the first minimum. */
  lemma BelowContiguousTable(table: seq<Grade>, x: real)
    ensures Contiguous(table) && x < table[0].min ==> forall j :: 0 <= j < |table| ==> !InGrade(table[j], x)
  {
    forall j | Contiguous(table) && x < table[0].min && 1 <= j < |table|
      ensures !InGrade(table[j], x)
    {
      MinsIncrease(table, 1, j);
    }
  }

  /** On a contiguous table a positive salary gets exactly its own grade's amount. */
  lemma ContiguousLookup(table: seq<Grade>, x: real, i: nat)
    requires Contiguous(table) && 0.0 < x && i < |table| && InGrade(table[i], x)
    ensures LookupRemuneration(table, x) == table[i].amount
  {
    if i > 0 {
      MinsIncrease(table, 1, i);
    }
    ContiguousGradeExists(table, x);
    var k := FindGrade(table, x).value;
    ContiguousGradeUnique(table, x, i, k);
  }

  /** The 32 grades (in yen) the stand-alone pension estimate uses. */
  const StandardGrades: seq<Grade> := [
    Grade(0.0, Finite(93000.0), 88000.0),
    Grade(93000.0, Finite(101000.0), 98000.0),
    Grade(101000.0, Finite(107000.0), 104000.0),
    Grade(107000.0, Finite(114000.0), 110000.0),
    Grade(114000.0, Finite(122000.0), 118000.0),
    Grade(122000.0, Finite(130000.0), 126000.0),
    Grade(130000.0, Finite(138000.0), 134000.0),
    Grade(138000.0, Finite(146000.0), 142000.0),
    Grade(146000.0, Finite(155000.0), 150000.0),
    Grade(155000.0, Finite(165000.0), 160000.0),
    Grade(165000.0, Finite(175000.0), 170000.0),
    Grade(175000.0, Finite(185000.0), 180000.0),
    Grade(185000.0, Finite(195000.0), 190000.0),
    Grade(195000.0, Finite(210000.0), 200000.0),
    Grade(210000.0, Finite(230000.0), 220000.0),
    Grade(230000.0, Finite(250000.0), 240000.0),
    Grade(250000.0, Finite(270000.0), 260000.0),
    Grade(270000.0, Finite(290000.0), 280000.0),
    Grade(290000.0, Finite(310000.0), 300000.0),
    Grade(310000.0, Finite(330000.0), 320000.0),
    Grade(330000.0, Finite(350000.0), 340000.0),
    Grade(350000.0, Finite(370000.0), 360000.0),
    Grade(370000.0, Finite(395000.0), 380000.0),
    Grade(395000.0, Finite(425000.0), 410000.0),
    Grade(425000.0, Finite(455000.0), 440000.0),
    Grade(455000.0, Finite(485000.0), 470000.0),
    Grade(485000.0, Finite(515000.0), 500000.0),
    Grade(515000.0, Finite(545000.0), 530000.0),
    Grade(545000.0, Finite(575000.0), 560000.0),
    Grade(575000.0, Finite(605000.0), 590000.0),
    Grade(605000.0, Finite(635000.0), 620000.0),
    Grade(635000.0, Unbounded, 650000.0)
  ]

  lemma StandardGradesContiguous()
    ensures Contiguous(StandardGrades)
  {
    forall i | 0 <= i < |StandardGrades| - 1
      ensures StandardGrades[i].max == Finite(StandardGrades[i + 1].min) && StandardGrades[i].min < StandardGrades[i + 1].min
    {
      if i < 8 {} else if i < 16 {} else if i < 24 {} else {}
    }
  }

  lemma StandardLookup(monthlySalary: real)
    ensures monthlySalary > 0.0 ==> 88000.0 <= LookupRemuneration(StandardGrades, monthlySalary) <= 650000.0
    ensures monthlySalary > 0.0 ==> exists i :: 0 <= i < |StandardGrades| && InGrade(StandardGrades[i], monthlySalary)
                                                && LookupRemuneration(StandardGrades, monthlySalary) == StandardGrades[i].amount
  {
    if monthlySalary > 0.0 {
      StandardGradesContiguous();
      ContiguousGradeExists(StandardGrades, monthlySalary);
      var i := FindGrade(StandardGrades, monthlySalary).value;
      StandardAmountsBounded(i);
    }
  }

  lemma StandardAmountsBounded(i: nat)
    requires i < |StandardGrades|
    ensures 88000.0 <= StandardGrades[i].amount <= 650000.0
  {
    if i < 8 {} else if i < 16 {} else if i < 24 {} else {}
  }

  /** Standard remuneration from the fixed grade table. */
  function GetStandardRemuneration(monthlySalary: real): (r: real)
    ensures monthlySalary <= 0.0 ==> r == 0.0
    ensures monthlySalary > 0.0 ==> 88000.0 <= r <= 650000.0
  {
    StandardLookup(monthlySalary);
    LookupRemuneration(StandardGrades, monthlySalary)
  }

  // ---------------------------------------------------------------------------
  // Stand-alone pension estimate (not used by the projection)
  // ---------------------------------------------------------------------------

  /**
   * Early claiming loses 0.4% a month (to at most half), late claiming gains
   * 0.7% a month for at most 120 months.
   */
  function LegacyAdjustmentRate(pensionStartAge: int): (r: real)
    ensures 0.5 <= r <= 1.84
    ensures pensionStartAge == 65 ==> r == 1.0
    ensures pensionStartAge < 65 ==> r < 1.0
    ensures pensionStartAge > 65 ==> r > 1.0
  {
    if pensionStartAge < 65 then Max(1.0 - 0.004 * ((65 - pensionStartAge) * 12) as real, 0.5)
    else if pensionStartAge > 65 then 1.0 + 0.007 * MinInt((pensionStartAge - 65) * 12, 120) as real
    else 1.0
  }

  /** The standard remuneration of the average monthly salary, in yen. */
  function LegacyStandard(annualIncome: real): (r: real)
    ensures r >= 0.0
  {
    GetStandardRemuneration(annualIncome * 10000.0 / 12.0)
  }

  /**
   * The stand-alone estimate's employees' pension in yen from the standard
   * remuneration (capped at 650,000 yen), half the months counted as before
   * April 2003 (at most 240).
   */
  function LegacyWelfareYen(standard: real, workingMonths: int): real
  {
    LegacyAccrual(Min(standard, 650000.0), workingMonths)
  }

  /** Accrual at 7.125/1000 for the months before April 2003 and 5.481/1000 after. */
  function LegacyAccrual(standard: real, workingMonths: int): real
  {
    var before := Min(workingMonths as real / 2.0, 240.0);
    standard * 0.007125 * before + standard * 0.005481 * (workingMonths as real - before)
  }

  lemma LegacyAccrualNonNegative(standard: real, workingMonths: int)
    requires standard >= 0.0 && workingMonths >= 0
    ensures LegacyAccrual(standard, workingMonths) >= 0.0
  {
    var before := Min(workingMonths as real / 2.0, 240.0);
    MulNonNegative(standard * 0.007125, before);
    MulNonNegative(standard * 0.005481, workingMonths as real - before);
  }

  /**
   * The earnings test of the stand-alone estimate: half of what salary plus
   * pension exceeds 510,000 yen a month is withheld, from the employees'
   * pension part only.
   */
  function LegacyAfterWorking(total: real, welfareAdjusted: real, monthlySalary: real): (r: real)
    ensures welfareAdjusted >= 0.0 ==> total - welfareAdjusted <= r <= total
    ensures welfareAdjusted >= 0.0 && monthlySalary + total / 12.0 <= 510000.0 ==> r == total
  {
    var excess := Max(0.0, monthlySalary + total / 12.0 - 510000.0);
    (total / 12.0 - Min(welfareAdjusted / 12.0, excess / 2.0)) * 12.0
  }

  /** The months counted: the working years, at most 40. */
  function LegacyMonths(workStartAge: int, workEndAge: int): int
  {
    MinInt(workEndAge - workStartAge, 40) * 12
  }

  /** The basic pension in yen, in proportion to the months of the 480 that make a full one. */
  function LegacyBasic(workingMonths: int): real
  {
    780900.0 * Min(workingMonths as real / 480.0, 1.0)
  }

  /** The unrounded yearly pension in yen of the stand-alone estimate. */
  function LegacyPensionYen(standard: real, annualIncome: real, workStartAge: int, workEndAge: int, pensionStartAge: int,
                            occupation: Occupation, willWorkAfterPension: bool): real
  {
    var workingMonths := LegacyMonths(workStartAge, workEndAge);
    var basic := LegacyBasic(workingMonths);
    var rate := LegacyAdjustmentRate(pensionStartAge);
    if !HasEmployeePension(occupation) then basic * rate
    else LegacyEmployeePension(basic, LegacyWelfareYen(standard, workingMonths), rate,
                               annualIncome * 10000.0 / 12.0, willWorkAfterPension)
  }

  /** Basic plus employees' pension, adjusted for the claiming age and, when still working, for earnings. */
  function LegacyEmployeePension(basic: real, welfare: real, rate: real, monthlySalary: real, willWorkAfterPension: bool): (r: real)
    ensures welfare >= 0.0 && rate >= 0.0 ==> r <= (basic + welfare) * rate
    ensures !willWorkAfterPension ==> r == (basic + welfare) * rate
  {
    var total := (basic + welfare) * rate;
    MulNonNegative(welfare, rate);
    if willWorkAfterPension then LegacyAfterWorking(total, welfare * rate, monthlySalary)
    else total
  }

  /** `calculatePension`: the estimate in 万円, rounded to one decimal. */
  function LegacyPension(annualIncome: real, workStartAge: int, workEndAge: int, pensionStartAge: int,
                         occupation: Occupation, willWorkAfterPension: bool): (r: real)
    ensures IsTenth(r)
    ensures r - 0.05 <= LegacyPensionYen(LegacyStandard(annualIncome), annualIncome, workStartAge, workEndAge, pensionStartAge,
                                         occupation, willWorkAfterPension) / 10000.0 < r + 0.05
  {
    ManYen(LegacyPensionYen(LegacyStandard(annualIncome), annualIncome, workStartAge, workEndAge, pensionStartAge,
                            occupation, willWorkAfterPension))
  }

  /** A yen amount in 万円, to one decimal. */
  function ManYen(yen: real): (r: real)
    ensures IsTenth(r)
    ensures r - 0.05 <= yen / 10000.0 < r + 0.05
  {
    Round1(yen / 10000.0)
  }

  lemma LegacyWelfareNonNegative(standard: real, workingMonths: int)
    requires standard >= 0.0 && workingMonths >= 0
    ensures LegacyWelfareYen(standard, workingMonths) >= 0.0
  {
    LegacyAccrualNonNegative(Min(standard, 650000.0), workingMonths);
  }

  lemma LegacyEmployeeWorkingBelow(basic: real, welfare: real, rate: real, monthlySalary: real)
    requires welfare >= 0.0 && rate >= 0.0
    ensures LegacyEmployeePension(basic, welfare, rate, monthlySalary, true)
            <= LegacyEmployeePension(basic, welfare, rate, monthlySalary, false)
  {
  }

  /** Converting yen to 万円 rounded to a tenth keeps the order. */
  lemma ManYenMonotone(x: real, y: real)
    requires x <= y
    ensures ManYen(x) <= ManYen(y)
  {
    Round1Monotone(x / 10000.0, y / 10000.0);
  }

  lemma LegacyYenWorkingBelow(standard: real, annualIncome: real, workStartAge: int, workEndAge: int, pensionStartAge: int,
                               occupation: Occupation)
    requires standard >= 0.0 && workStartAge <= workEndAge
    ensures LegacyPensionYen(standard, annualIncome, workStartAge, workEndAge, pensionStartAge, occupation, true)
            <= LegacyPensionYen(standard, annualIncome, workStartAge, workEndAge, pensionStartAge, occupation, false)
    ensures ManYen(LegacyPensionYen(standard, annualIncome, workStartAge, workEndAge, pensionStartAge, occupation, true))
            <= ManYen(LegacyPensionYen(standard, annualIncome, workStartAge, workEndAge, pensionStartAge, occupation, false))
  {
    if HasEmployeePension(occupation) {
      var months := LegacyMonths(workStartAge, workEndAge);
      LegacyWelfareNonNegative(standard, months);
      LegacyEmployeeWorkingBelow(LegacyBasic(months), LegacyWelfareYen(standard, months),
                                 LegacyAdjustmentRate(pensionStartAge), annualIncome * 10000.0 / 12.0);
    }
    ManYenMonotone(LegacyPensionYen(standard, annualIncome, workStartAge, workEndAge, pensionStartAge, occupation, true),
                   LegacyPensionYen(standard, annualIncome, workStartAge, workEndAge, pensionStartAge, occupation, false));
  }

  /**
   * Working while drawing the pension never raises the estimate; only the
   * basic pension is safe from the earnings test.
   */
  lemma LegacyWorkingReduction(annualIncome: real, workStartAge: int, workEndAge: int, pensionStartAge: int, occupation: Occupation)
    requires workStartAge <= workEndAge
    ensures LegacyPension(annualIncome, workStartAge, workEndAge, pensionStartAge, occupation, true)
            <= LegacyPension(annualIncome, workStartAge, workEndAge, pensionStartAge, occupation, false)
  {
    var standard := LegacyStandard(annualIncome);
    var working := LegacyPensionYen(standard, annualIncome, workStartAge, workEndAge, pensionStartAge, occupation, true);
    var idle := LegacyPensionYen(standard, annualIncome, workStartAge, workEndAge, pensionStartAge, occupation, false);
    LegacyYenWorkingBelow(standard, annualIncome, workStartAge, workEndAge, pensionStartAge, occupation);
    assert LegacyPension(annualIncome, workStartAge, workEndAge, pensionStartAge, occupation, true) == ManYen(working);
    assert LegacyPension(annualIncome, workStartAge, workEndAge, pensionStartAge, occupation, false) == ManYen(idle);
  }
}
