/**
 * Loan repayment schedules and the yearly repayments they add to a book.
 *
 * A schedule has one row per year of the term. A loan at 0% is repaid in
 * equal yearly principal amounts whatever repayment type it names; otherwise
 * it is repaid either with a level yearly payment (元利均等) or with a level
 * yearly principal plus the year's interest (元金均等). Interest is charged
 * yearly on the unrounded balance; every recorded figure is rounded to 0.1万円.
 */
module Loans {
  import opened Money
  import opened SimulatorTypes
  import Calculations

  datatype LoanTerms = LoanTerms(borrowAmount: real, interestRate: real, termYears: int, repaymentType: RepaymentType)

  /** One row of a schedule; `year` counts the years of the term from 1. */
  datatype Payment = Payment(year: int, payment: real, principal: real, interest: real, remainingBalance: real)

  /** The fixed yearly principal, `borrowAmount / termYears` to one decimal. */
  function YearlyPrincipal(t: LoanTerms): real
  {
    if t.termYears >= 1 then Round1(t.borrowAmount / t.termYears as real) else 0.0
  }

  /** Twelve monthly annuity payments at a twelfth of the yearly rate, to one decimal. */
  function YearlyPayment(t: LoanTerms): real
  {
    if t.termYears >= 1 then Round1(Calculations.AnnuityPayment(t.borrowAmount, t.interestRate / 100.0 / 12.0, t.termYears * 12) * 12.0)
    else 0.0
  }

  function Interest(balance: real, interestRate: real): real
  {
    balance * (interestRate / 100.0)
  }

  /** A year's interest on `balance`, to one decimal. */
  function YearlyInterest(balance: real, interestRate: real): real
  {
    Round1(Interest(balance, interestRate))
  }

  // ---------------------------------------------------------------------------
  // 0% loans
  // ---------------------------------------------------------------------------

  function Repaid(t: LoanTerms, year: int): real
  {
    YearlyPrincipal(t) * year as real
  }

  /** Row `year` of a 0% loan: what is left after `year` equal instalments, never below 0. */
  function ZeroRateRow(t: LoanTerms, year: int): Payment
  {
    var p := YearlyPrincipal(t);
    Payment(year, p, p, 0.0, Max(0.0, Round1(t.borrowAmount - Repaid(t, year))))
  }

  function ZeroRateRows(t: LoanTerms, year: int): (r: seq<Payment>)
    ensures |r| == if year > t.termYears then 0 else t.termYears - year + 1
    ensures forall i :: 0 <= i < |r| ==> r[i] == ZeroRateRow(t, year + i)
    decreases t.termYears - year
  {
    if year > t.termYears then [] else [ZeroRateRow(t, year)] + ZeroRateRows(t, year + 1)
  }

  // ---------------------------------------------------------------------------
  // Level payment (元利均等)
  // ---------------------------------------------------------------------------

  /** The part of the level payment that goes to principal, never more than what is owed. */
  function LevelPrincipal(t: LoanTerms, balance: real): real
  {
    Min(YearlyPayment(t) - YearlyInterest(balance, t.interestRate), balance)
  }

  function LevelNext(t: LoanTerms, balance: real): real
  {
    Max(0.0, balance - LevelPrincipal(t, balance))
  }

  function LevelRow(t: LoanTerms, balance: real, year: int): Payment
  {
    Payment(year, YearlyPayment(t), Round1(LevelPrincipal(t, balance)), YearlyInterest(balance, t.interestRate),
            Round1(LevelNext(t, balance)))
  }

  function LevelRows(t: LoanTerms, balance: real, year: int): (r: seq<Payment>)
    ensures |r| == if year > t.termYears then 0 else t.termYears - year + 1
    ensures forall i :: 0 <= i < |r| ==>
              r[i].year == year + i && r[i].payment == YearlyPayment(t) && r[i].remainingBalance >= 0.0
    decreases t.termYears - year
  {
    if year > t.termYears then []
    else
      Round1NonNegative(LevelNext(t, balance));
      [LevelRow(t, balance, year)] + LevelRows(t, LevelNext(t, balance), year + 1)
  }

  // ---------------------------------------------------------------------------
  // Level principal (元金均等)
  // ---------------------------------------------------------------------------

  function PrincipalNext(t: LoanTerms, balance: real): real
  {
    Max(0.0, balance - YearlyPrincipal(t))
  }

  function PrincipalRow(t: LoanTerms, balance: real, year: int): Payment
  {
    var interest := YearlyInterest(balance, t.interestRate);
    Payment(year, Round1(YearlyPrincipal(t) + interest), YearlyPrincipal(t), interest, Round1(PrincipalNext(t, balance)))
  }

  function PrincipalRows(t: LoanTerms, balance: real, year: int): (r: seq<Payment>)
    ensures |r| == if year > t.termYears then 0 else t.termYears - year + 1
    ensures forall i :: 0 <= i < |r| ==>
              r[i].year == year + i && r[i].principal == YearlyPrincipal(t)
              && r[i].payment == Round1(r[i].principal + r[i].interest) && r[i].remainingBalance >= 0.0
    decreases t.termYears - year
  {
    if year > t.termYears then []
    else
      Round1NonNegative(PrincipalNext(t, balance));
      [PrincipalRow(t, balance, year)] + PrincipalRows(t, PrincipalNext(t, balance), year + 1)
  }

  // ---------------------------------------------------------------------------
  // The schedule
  // ---------------------------------------------------------------------------

  /** `calculateLoanScheduleInStore` / `calculateLoanSchedule`: the rows for years 1..termYears. */
  function Schedule(t: LoanTerms): (r: seq<Payment>)
    ensures |r| == MaxInt(t.termYears, 0)
    ensures forall i :: 0 <= i < |r| ==> r[i].year == i + 1 && r[i].remainingBalance >= 0.0
    ensures t.interestRate == 0.0 ==>
              forall i :: 0 <= i < |r| ==> r[i].interest == 0.0 && r[i].payment == r[i].principal == YearlyPrincipal(t)
    ensures t.interestRate != 0.0 && t.repaymentType == EqualPayment ==>
              forall i :: 0 <= i < |r| ==> r[i].payment == YearlyPayment(t)
    ensures t.interestRate != 0.0 && t.repaymentType == EqualPrincipal ==>
              forall i :: 0 <= i < |r| ==> r[i].principal == YearlyPrincipal(t) && r[i].payment == Round1(r[i].principal + r[i].interest)
  {
    if t.interestRate == 0.0 then ZeroRateRows(t, 1)
    else if t.repaymentType == EqualPayment then LevelRows(t, t.borrowAmount, 1)
    else PrincipalRows(t, t.borrowAmount, 1)
  }

  /** At 0% the repayment type is ignored. */
  lemma ZeroRateIgnoresType(t: LoanTerms, other: RepaymentType)
    requires t.interestRate == 0.0
    ensures Schedule(t.(repaymentType := other)) == Schedule(t)
  {
    ZeroRateRowsIgnoreType(t, other, 1);
  }

  lemma {:induction false} ZeroRateRowsIgnoreType(t: LoanTerms, other: RepaymentType, year: int)
    ensures ZeroRateRows(t.(repaymentType := other), year) == ZeroRateRows(t, year)
    decreases t.termYears - year
  {
    var u := t.(repaymentType := other);
    if year <= t.termYears {
      ZeroRateRowsIgnoreType(t, other, year + 1);
      assert YearlyPrincipal(u) == YearlyPrincipal(t);
      assert Repaid(u, year) == Repaid(t, year);
      assert ZeroRateRow(u, year) == ZeroRateRow(t, year);
    }
  }

  /** The recorded balance of a 0% loan never rises when the instalment is not negative. */
  lemma ZeroRateBalancesFall(t: LoanTerms, i: nat)
    requires t.interestRate == 0.0 && t.borrowAmount >= 0.0 && i + 1 < |Schedule(t)|
    ensures Schedule(t)[i + 1].remainingBalance <= Schedule(t)[i].remainingBalance
  {
    var s := Schedule(t);
    assert s[i] == ZeroRateRow(t, 1 + i) && s[i + 1] == ZeroRateRow(t, 1 + (i + 1));
    DivMonotone(0.0, t.borrowAmount, t.termYears as real);
    Round1NonNegative(t.borrowAmount / t.termYears as real);
    RepaidStep(t, i + 1);
    Round1Monotone(t.borrowAmount - Repaid(t, i + 2), t.borrowAmount - Repaid(t, i + 1));
  }

  lemma RepaidStep(t: LoanTerms, k: int)
    requires YearlyPrincipal(t) >= 0.0
    ensures Repaid(t, k + 1) >= Repaid(t, k)
  {
    assert (k + 1) as real == k as real + 1.0;
    MulMonotone(YearlyPrincipal(t), k as real, (k + 1) as real);
  }

  /** With a non-negative instalment, each year's recorded balance is at most the last one's. */
  lemma {:induction false} PrincipalBalancesFall(t: LoanTerms, balance: real, year: int, i: nat)
    requires YearlyPrincipal(t) >= 0.0 && i + 1 < |PrincipalRows(t, balance, year)|
    ensures PrincipalRows(t, balance, year)[i + 1].remainingBalance <= PrincipalRows(t, balance, year)[i].remainingBalance
    decreases i
  {
    var next := PrincipalNext(t, balance);
    var rest := PrincipalRows(t, next, year + 1);
    assert PrincipalRows(t, balance, year) == [PrincipalRow(t, balance, year)] + rest;
    if i == 0 {
      assert rest == [PrincipalRow(t, next, year + 1)] + PrincipalRows(t, PrincipalNext(t, next), year + 2);
      assert PrincipalNext(t, next) <= next;
      Round1Monotone(PrincipalNext(t, next), next);
    } else {
      PrincipalBalancesFall(t, next, year + 1, i - 1);
    }
  }

  /** At a non-negative rate a smaller balance never draws more interest. */
  lemma YearlyInterestMonotone(a: real, b: real, interestRate: real)
    requires a <= b && interestRate >= 0.0
    ensures YearlyInterest(a, interestRate) <= YearlyInterest(b, interestRate)
  {
    MulMonotone(interestRate / 100.0, a, b);
    Round1Monotone(Interest(a, interestRate), Interest(b, interestRate));
  }

  /** A payment that covers the interest leaves a balance between 0 and the one before. */
  lemma LevelNextBetween(t: LoanTerms, balance: real)
    requires balance >= 0.0 && YearlyPayment(t) >= YearlyInterest(balance, t.interestRate)
    ensures 0.0 <= LevelNext(t, balance) <= balance
  {
  }

  /**
   * At a non-negative rate, when the level payment covers the interest on the
   * balance the rows start from, the recorded balance never rises: the
   * balance only falls, so the interest it draws falls too and stays covered.
   */
  lemma {:induction false} LevelBalancesFall(t: LoanTerms, balance: real, year: int, i: nat)
    requires i + 1 < |LevelRows(t, balance, year)|
    requires t.interestRate >= 0.0 && balance >= 0.0 && YearlyPayment(t) >= YearlyInterest(balance, t.interestRate)
    ensures LevelRows(t, balance, year)[i + 1].remainingBalance <= LevelRows(t, balance, year)[i].remainingBalance
    decreases i
  {
    var next := LevelNext(t, balance);
    var rest := LevelRows(t, next, year + 1);
    assert LevelRows(t, balance, year) == [LevelRow(t, balance, year)] + rest;
    LevelNextBetween(t, balance);
    YearlyInterestMonotone(next, balance, t.interestRate);
    if i == 0 {
      assert rest == [LevelRow(t, next, year + 1)] + LevelRows(t, LevelNext(t, next), year + 2);
      LevelNextBetween(t, next);
      Round1Monotone(LevelNext(t, next), next);
    } else {
      LevelBalancesFall(t, next, year + 1, i - 1);
    }
  }

  /** An equal-payment schedule at a positive rate whose payment covers the first year's interest never shows a rising balance. */
  lemma LevelScheduleBalancesFall(t: LoanTerms, i: nat)
    requires t.interestRate > 0.0 && t.repaymentType == EqualPayment && t.borrowAmount >= 0.0
    requires YearlyPayment(t) >= YearlyInterest(t.borrowAmount, t.interestRate)
    requires i + 1 < |Schedule(t)|
    ensures Schedule(t)[i + 1].remainingBalance <= Schedule(t)[i].remainingBalance
  {
    LevelBalancesFall(t, t.borrowAmount, 1, i);
  }

  lemma ZeroRateRowsStep(t: LoanTerms, year: int)
    requires year <= t.termYears
    ensures ZeroRateRows(t, year) == [ZeroRateRow(t, year)] + ZeroRateRows(t, year + 1)
  {
  }

  lemma LevelRowsStep(t: LoanTerms, balance: real, year: int)
    requires year <= t.termYears
    ensures LevelRows(t, balance, year) == [LevelRow(t, balance, year)] + LevelRows(t, LevelNext(t, balance), year + 1)
  {
  }

  lemma PrincipalRowsStep(t: LoanTerms, balance: real, year: int)
    requires year <= t.termYears
    ensures PrincipalRows(t, balance, year) == [PrincipalRow(t, balance, year)] + PrincipalRows(t, PrincipalNext(t, balance), year + 1)
  {
  }

  /** The 0% branch of the generator: appends one equal instalment per year. */
  method ZeroRateSchedule(t: LoanTerms) returns (schedule: seq<Payment>)
    ensures schedule == ZeroRateRows(t, 1)
  {
    schedule := [];
    var p := YearlyPrincipal(t);
    for k := 0 to MaxInt(t.termYears, 0)
      invariant schedule + ZeroRateRows(t, k + 1) == ZeroRateRows(t, 1)
    {
      var year := k + 1;
      var remaining := Max(0.0, Round1(t.borrowAmount - Repaid(t, year)));
      ZeroRateRowsStep(t, year);
      assert Payment(year, p, p, 0.0, remaining) == ZeroRateRow(t, year);
      schedule := schedule + [Payment(year, p, p, 0.0, remaining)];
    }
    assert ZeroRateRows(t, MaxInt(t.termYears, 0) + 1) == [];
  }

  /** One year of the level-payment loop: interest first, the rest of the payment repays principal. */
  method LevelYear(t: LoanTerms, yearly: real, balance: real, year: int) returns (row: Payment, next: real)
    requires yearly == YearlyPayment(t)
    ensures row == LevelRow(t, balance, year) && next == LevelNext(t, balance)
  {
    var interest := YearlyInterest(balance, t.interestRate);
    var principal := Min(yearly - interest, balance);
    next := Max(0.0, balance - principal);
    row := Payment(year, yearly, Round1(principal), interest, Round1(next));
  }

  /** The level-payment branch: one row per year of the term. */
  method LevelSchedule(t: LoanTerms) returns (schedule: seq<Payment>)
    ensures schedule == LevelRows(t, t.borrowAmount, 1)
  {
    schedule := [];
    var yearly := YearlyPayment(t);
    var balance := t.borrowAmount;
    for k := 0 to MaxInt(t.termYears, 0)
      invariant schedule + LevelRows(t, balance, k + 1) == LevelRows(t, t.borrowAmount, 1)
    {
      LevelRowsStep(t, balance, k + 1);
      var row, next := LevelYear(t, yearly, balance, k + 1);
      schedule := schedule + [row];
      balance := next;
    }
    assert LevelRows(t, balance, MaxInt(t.termYears, 0) + 1) == [];
  }

  /** The level-principal branch: a fixed principal plus the year's interest. */
  method PrincipalSchedule(t: LoanTerms) returns (schedule: seq<Payment>)
    ensures schedule == PrincipalRows(t, t.borrowAmount, 1)
  {
    schedule := [];
    var p := YearlyPrincipal(t);
    var balance := t.borrowAmount;
    for k := 0 to MaxInt(t.termYears, 0)
      invariant schedule + PrincipalRows(t, balance, k + 1) == PrincipalRows(t, t.borrowAmount, 1)
    {
      var year := k + 1;
      var interest := YearlyInterest(balance, t.interestRate);
      var next := Max(0.0, balance - p);
      PrincipalRowsStep(t, balance, year);
      assert Payment(year, Round1(p + interest), p, interest, Round1(next)) == PrincipalRow(t, balance, year);
      schedule := schedule + [Payment(year, Round1(p + interest), p, interest, Round1(next))];
      balance := next;
    }
    assert PrincipalRows(t, balance, MaxInt(t.termYears, 0) + 1) == [];
  }

  /** The schedule generator: a loop that appends one row per year. */
  method LoanSchedule(t: LoanTerms) returns (schedule: seq<Payment>)
    ensures schedule == Schedule(t)
  {
    if t.interestRate == 0.0 {
      schedule := ZeroRateSchedule(t);
    } else if t.repaymentType == EqualPayment {
      schedule := LevelSchedule(t);
    } else {
      schedule := PrincipalSchedule(t);
    }
  }

  // ---------------------------------------------------------------------------
  // Yearly repayments of a book
  // ---------------------------------------------------------------------------

  /** The amount borrowed: the magnitude of the liability's entry for its start year. */
  function Borrowed(l: LiabilityItem): real
  {
    Abs(Get(l.amounts, l.startYear))
  }

  /** A liability is repaid by schedule when its loan was calculated and something was borrowed. */
  predicate Repays(l: LiabilityItem)
  {
    l.autoCalculate && l.isCalculated && l.startYear != 0 && l.termYears != 0 && Borrowed(l) > 0.0
  }

  /** The loan terms of a liability; an unset repayment type means level payment. */
  function TermsOf(l: LiabilityItem): LoanTerms
  {
    LoanTerms(Borrowed(l), l.interestRate, l.termYears,
              if l.repaymentType.Some? then l.repaymentType.value else EqualPayment)
  }

  /**
   * What liability `l` adds to the repayments of `year`: the payment of its
   * schedule row for that year, counted from the year after the start year,
   * and nothing after `lastYear`, the last year of the projection.
   */
  function Contribution(l: LiabilityItem, year: int, lastYear: int): (r: real)
    ensures r != 0.0 ==> Repays(l) && l.startYear < year <= l.startYear + l.termYears && year <= lastYear
  {
    var s := Schedule(TermsOf(l));
    if Repays(l) && l.startYear < year <= l.startYear + |s| && year <= lastYear then s[year - l.startYear - 1].payment
    else 0.0
  }

  /** The repayments of a book for `year`, summed over its liabilities in order. */
  function RepaymentIn(ls: seq<LiabilityItem>, year: int, lastYear: int): real
  {
    if ls == [] then 0.0 else RepaymentIn(ls[..|ls| - 1], year, lastYear) + Contribution(ls[|ls| - 1], year, lastYear)
  }

  /** Repayments of two lists of liabilities add up. */
  lemma {:induction false} RepaymentAppend(xs: seq<LiabilityItem>, ys: seq<LiabilityItem>, year: int, lastYear: int)
    ensures RepaymentIn(xs + ys, year, lastYear) == RepaymentIn(xs, year, lastYear) + RepaymentIn(ys, year, lastYear)
    decreases |ys|
  {
    if ys == [] {
      assert xs + ys == xs;
    } else {
      var n := |ys| - 1;
      assert (xs + ys)[..|xs + ys| - 1] == xs + ys[..n];
      RepaymentAppend(xs, ys[..n], year, lastYear);
    }
  }

  /** A year that no calculated loan's term covers, or one past the projection, has no repayment. */
  lemma {:induction false} RepaymentOnlyInTerms(ls: seq<LiabilityItem>, year: int, lastYear: int)
    requires year > lastYear || forall l :: l in ls && Repays(l) ==> !(l.startYear < year <= l.startYear + l.termYears)
    ensures RepaymentIn(ls, year, lastYear) == 0.0
    decreases |ls|
  {
    if ls != [] {
      assert forall l :: l in ls[..|ls| - 1] ==> l in ls;
      RepaymentOnlyInTerms(ls[..|ls| - 1], year, lastYear);
    }
  }

  /** Adds the payments of one liability's schedule to the repayments, year by year. */
  method AddRepayments(repayments: YearMap, l: LiabilityItem, lastYear: int) returns (r: YearMap)
    ensures forall y :: Get(r, y) == Get(repayments, y) + Contribution(l, y, lastYear)
  {
    r := repayments;
    if Repays(l) {
      var schedule := LoanSchedule(TermsOf(l));
      var j := 0;
      while j < |schedule|
        invariant 0 <= j <= |schedule|
        invariant forall y :: Get(r, y) == Get(repayments, y)
                              + (if l.startYear < y <= l.startYear + j && y <= lastYear then schedule[y - l.startYear - 1].payment else 0.0)
      {
        var year := l.startYear + j + 1;
        if year <= lastYear {
          r := r[year := Get(r, year) + schedule[j].payment];
        }
        j := j + 1;
      }
    }
  }

  /** `calculateLoanRepayments`: the repayments of a book, year by year. */
  method LoanRepayments(ls: seq<LiabilityItem>, lastYear: int) returns (repayments: YearMap)
    ensures forall y :: Get(repayments, y) == RepaymentIn(ls, y, lastYear)
  {
    repayments := map[];
    var i := 0;
    while i < |ls|
      invariant 0 <= i <= |ls|
      invariant forall y :: Get(repayments, y) == RepaymentIn(ls[..i], y, lastYear)
    {
      assert ls[..i + 1][..i] == ls[..i] && ls[..i + 1][i] == ls[i];
      repayments := AddRepayments(repayments, ls[i], lastYear);
      i := i + 1;
    }
    assert ls[..i] == ls;
  }
}
