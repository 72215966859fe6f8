/**
 * The income form's table edits. Salary lines of an earner insured under the
 * employees' pension are entered gross and shown as take-home pay: the gross
 * amount is kept in `originalAmounts` and the net amount in `amounts`. Each
 * handler works on one section of the income tables (`incomeData[section]`).
 */
module IncomeForm {
  import opened Money
  import opened SimulatorTypes
  import Calculations
  import PensionCalculations
  import Projection
  import ItemIds

  function HasId(id: string): IncomeItem -> bool
  {
    (e: IncomeItem) => e.id == id
  }

  // ---------------------------------------------------------------------------
  // Take-home pay lines
  // ---------------------------------------------------------------------------

  /** `isNetIncomeTarget`: the user's salary line or the spouse's income line, for an earner with the employees' pension. */
  predicate IsNetIncomeTarget(name: string, info: BasicInfo)
  {
    (name == PensionCalculations.SalaryName && HasEmployeePension(info.occupation))
    || (name == PensionCalculations.SpouseIncomeName && info.spouseInfo.Some? && info.spouseInfo.value.occupation.Some?
        && HasEmployeePension(info.spouseInfo.value.occupation.value))
  }

  /** The occupation of the person whose income a line is: the user's for the salary line, the spouse's for the spouse line. */
  function EarnerOf(name: string, info: BasicInfo): Option<Occupation>
  {
    if name == PensionCalculations.SalaryName then Some(info.occupation)
    else if name == PensionCalculations.SpouseIncomeName && info.spouseInfo.Some? then info.spouseInfo.value.occupation
    else None
  }

  /** A line is converted to take-home pay exactly when it belongs to an earner insured under the employees' pension. */
  lemma NetIncomeTargetIff(name: string, info: BasicInfo)
    ensures IsNetIncomeTarget(name, info) <==> EarnerOf(name, info).Some? && HasEmployeePension(EarnerOf(name, info).value)
  {
  }

  /** The occupation the net-income conversion of a target line uses. */
  function EarnerOccupation(name: string, info: BasicInfo): (r: Occupation)
    requires IsNetIncomeTarget(name, info)
    ensures EarnerOf(name, info) == Some(r) && HasEmployeePension(r)
  {
    if name == PensionCalculations.SalaryName then info.occupation else info.spouseInfo.value.occupation.value
  }

  /**
   * A target line's take-home pay is its gross amount less social insurance
   * at the employees' rate, income tax and resident tax.
   */
  lemma TargetPaysSocialInsurance(name: string, info: BasicInfo, gross: real)
    requires IsNetIncomeTarget(name, info)
    ensures var r := Calculations.NetIncome(gross, EarnerOccupation(name, info));
            r.deductions.socialInsurance == Floor(gross * Calculations.SocialInsuranceRate(gross))
            && r.netIncome == gross - (r.deductions.socialInsurance + r.deductions.incomeTax + r.deductions.residentTax)
  {
  }

  /**
   * Year `y` of a target line holds a gross amount in `originalAmounts` and
   * its take-home pay in `amounts`.
   */
  predicate GrossAndNet(line: IncomeItem, info: BasicInfo, y: int)
    requires IsNetIncomeTarget(line.name, info)
  {
    line.originalAmounts.Some? && y in line.originalAmounts.value && y in line.amounts
    && line.amounts[y] == Calculations.NetIncome(line.originalAmounts.value[y], EarnerOccupation(line.name, info)).netIncome
  }

  // ---------------------------------------------------------------------------
  // Autofill
  // ---------------------------------------------------------------------------

  datatype RaiseType = Percentage | FixedAmount

  datatype IncomeAutofill = IncomeAutofill(
    initialAmount: real,
    endAge: int,
    raiseType: RaiseType,
    raisePercentage: real,
    raiseAmount: real)

  /** The modal's initial settings: 400万円 until age 60, rising 1% a year (or 10万円 a year in fixed mode). */
  const DefaultIncomeAutofill: IncomeAutofill := IncomeAutofill(400.0, 60, Percentage, 1.0, 10.0)

  /** The amount of the `index`-th filled year before flooring: compounded by the percentage, or raised by a fixed amount. */
  function Raised(s: IncomeAutofill, index: int): real
  {
    if s.raiseType == Percentage then s.initialAmount * Factor(1.0 + s.raisePercentage / 100.0, index)
    else s.initialAmount + s.raiseAmount * (index as real)
  }

  /** The gross amount of the `index`-th filled year (`Math.floor`). */
  function Gross(s: IncomeAutofill, index: int): (r: real)
    ensures IsWhole(r) && r <= Raised(s, index) < r + 1.0
  {
    Floor(Raised(s, index))
  }

  /** The first filled year gets the initial amount, floored. */
  lemma GrossAtStart(s: IncomeAutofill)
    ensures Gross(s, 0) == Floor(s.initialAmount)
  {
    assert Factor(1.0 + s.raisePercentage / 100.0, 0) == 1.0;
  }

  /** With a non-negative initial amount and non-negative raises the gross series never falls. */
  lemma GrossNondecreasing(s: IncomeAutofill, i: int, j: int)
    requires 0 <= i <= j
    requires s.initialAmount >= 0.0 && s.raisePercentage >= 0.0 && s.raiseAmount >= 0.0
    ensures Gross(s, i) <= Gross(s, j)
  {
    if s.raiseType == Percentage {
      var b := 1.0 + s.raisePercentage / 100.0;
      PowMonotone(b, i, j);
      assert Factor(b, i) <= Factor(b, j);
      MulMonotone(s.initialAmount, Factor(b, i), Factor(b, j));
      assert Raised(s, i) <= Raised(s, j);
    } else {
      MulMonotone(s.raiseAmount, i as real, j as real);
      assert Raised(s, i) <= Raised(s, j);
    }
    FloorMonotone(Raised(s, i), Raised(s, j));
  }

  function GrossAmounts(s: IncomeAutofill, startYear: int): int -> real
  {
    (y: int) => Gross(s, y - startYear)
  }

  function NetAmounts(s: IncomeAutofill, startYear: int, occupation: Occupation): int -> real
  {
    (y: int) => Calculations.NetIncome(Gross(s, y - startYear), occupation).netIncome
  }

  /** Whether the autofill of `line` in `book` writes take-home pay. */
  predicate WritesNet(line: IncomeItem, book: Book, info: BasicInfo)
  {
    book == Personal && IsNetIncomeTarget(line.name, info)
  }

  /** The per-year values the autofill writes for `line`. */
  function AutofillValues(line: IncomeItem, book: Book, s: IncomeAutofill, info: BasicInfo): int -> real
  {
    if WritesNet(line, book, info) then NetAmounts(s, info.startYear, EarnerOccupation(line.name, info))
    else GrossAmounts(s, info.startYear)
  }

  /** The amounts the autofill writes for `line`: take-home pay for a personal target line, the gross amount otherwise. */
  function NewIncome(line: IncomeItem, book: Book, s: IncomeAutofill, info: BasicInfo): (r: YearMap)
    ensures forall y :: y in r <==> info.startYear <= y < info.startYear + Projection.FilledCount(info, s.endAge)
    ensures forall y :: y in r ==>
              r[y] == if WritesNet(line, book, info)
                      then Calculations.NetIncome(Gross(s, y - info.startYear), EarnerOccupation(line.name, info)).netIncome
                      else Gross(s, y - info.startYear)
  {
    var f := AutofillValues(line, book, s, info);
    var r := Override(map[], info.startYear, Projection.FilledCount(info, s.endAge), f);
    assert forall y :: y in r ==> r[y] == f(y);
    r
  }

  /** The gross amounts the autofill writes. */
  function NewGross(s: IncomeAutofill, info: BasicInfo): (r: YearMap)
    ensures forall y :: y in r <==> info.startYear <= y < info.startYear + Projection.FilledCount(info, s.endAge)
    ensures forall y :: y in r ==> r[y] == Gross(s, y - info.startYear)
  {
    var f := GrossAmounts(s, info.startYear);
    var r := Override(map[], info.startYear, Projection.FilledCount(info, s.endAge), f);
    assert forall y :: y in r ==> r[y] == f(y);
    r
  }

  /** The new amounts merged over a line's; the gross amounts kept only on a personal target line, dropped on any other. */
  function MergeFill(book: Book, info: BasicInfo, newAmounts: YearMap, newGross: YearMap): IncomeItem -> IncomeItem
  {
    (e: IncomeItem) =>
      e.(amounts := Merge(e.amounts, newAmounts),
         originalAmounts := if WritesNet(e, book, info) then Some(Merge(OrEmpty(e.originalAmounts), newGross)) else None)
  }

  /**
   * `applyAutofillSettings`: the filled years written over every line with
   * the id, converted as the first line with the id is converted.
   */
  function Autofilled(items: seq<IncomeItem>, book: Book, id: string, s: IncomeAutofill, info: BasicInfo): (r: seq<IncomeItem>)
    ensures |r| == |items|
    ensures forall j :: 0 <= j < |items| && items[j].id != id ==> r[j] == items[j]
    ensures id == "" ==> r == items
    ensures id != "" ==>
              forall j :: 0 <= j < |items| && items[j].id == id ==>
                var first := items[FirstWhere(items, HasId(id)).value];
                r[j] == items[j].(amounts := Merge(items[j].amounts, NewIncome(first, book, s, info)),
                                  originalAmounts := if WritesNet(items[j], book, info)
                                                     then Some(Merge(OrEmpty(items[j].originalAmounts), NewGross(s, info)))
                                                     else None)
  {
    if id == "" then items
    else match FirstWhere(items, HasId(id))
      case None => items
      case Some(i) => MapWhere(items, HasId(id), MergeFill(book, info, NewIncome(items[i], book, s, info), NewGross(s, info)))
  }

  lemma NewIncomeAt(line: IncomeItem, book: Book, s: IncomeAutofill, info: BasicInfo, y: int)
    requires info.startYear <= y < info.startYear + Projection.FilledCount(info, s.endAge)
    ensures y in NewIncome(line, book, s, info)
    ensures NewIncome(line, book, s, info)[y] ==
            if WritesNet(line, book, info)
            then Calculations.NetIncome(Gross(s, y - info.startYear), EarnerOccupation(line.name, info)).netIncome
            else Gross(s, y - info.startYear)
  {
  }

  lemma NewGrossAt(s: IncomeAutofill, info: BasicInfo, y: int)
    requires info.startYear <= y < info.startYear + Projection.FilledCount(info, s.endAge)
    ensures y in NewGross(s, info) && NewGross(s, info)[y] == Gross(s, y - info.startYear)
  {
  }

  /**
   * In a filled year the first line with the id, when it is a personal target
   * line, keeps the year's gross amount and holds its take-home pay.
   */
  lemma AutofillNetYear(items: seq<IncomeItem>, book: Book, id: string, s: IncomeAutofill, info: BasicInfo, j: nat, y: int)
    requires id != "" && FirstWhere(items, HasId(id)) == Some(j) && WritesNet(items[j], book, info)
    requires info.startYear <= y < info.startYear + Projection.FilledCount(info, s.endAge)
    ensures var line := Autofilled(items, book, id, s, info)[j];
            GrossAndNet(line, info, y) && line.originalAmounts.value[y] == Gross(s, y - info.startYear)
  {
    var line := Autofilled(items, book, id, s, info)[j];
    var amounts := NewIncome(items[j], book, s, info);
    var gross := NewGross(s, info);
    assert line == MergeFill(book, info, amounts, gross)(items[j]);
    NewIncomeAt(items[j], book, s, info, y);
    assert line.name == items[j].name;
    assert line.amounts[y] == amounts[y];
    assert line.originalAmounts.value[y] == gross[y];
    NewGrossAt(s, info, y);
  }

  /** In a filled year any other first line with the id holds the gross amount and no gross amounts. */
  lemma AutofillGrossYear(items: seq<IncomeItem>, book: Book, id: string, s: IncomeAutofill, info: BasicInfo, j: nat, y: int)
    requires id != "" && FirstWhere(items, HasId(id)) == Some(j) && !WritesNet(items[j], book, info)
    requires info.startYear <= y < info.startYear + Projection.FilledCount(info, s.endAge)
    ensures var line := Autofilled(items, book, id, s, info)[j];
            line.originalAmounts.None? && y in line.amounts && line.amounts[y] == Gross(s, y - info.startYear)
  {
    var line := Autofilled(items, book, id, s, info)[j];
    var amounts := NewIncome(items[j], book, s, info);
    assert line.amounts == Merge(items[j].amounts, amounts);
    NewIncomeAt(items[j], book, s, info, y);
    assert line.amounts[y] == amounts[y];
  }

  /** Past the end age every line with the id keeps its amounts. */
  lemma AutofillOtherYear(items: seq<IncomeItem>, book: Book, id: string, s: IncomeAutofill, info: BasicInfo, j: nat, y: int)
    requires id != "" && j < |items| && items[j].id == id
    requires !(info.startYear <= y < info.startYear + Projection.FilledCount(info, s.endAge))
    ensures var line := Autofilled(items, book, id, s, info)[j];
            (y in line.amounts <==> y in items[j].amounts) && (y in items[j].amounts ==> line.amounts[y] == items[j].amounts[y])
  {
    assert HasId(id)(items[j]);
  }

  /** The autofill's years loop: the new amounts and gross amounts written year by year. */
  method FillNew(line: IncomeItem, book: Book, s: IncomeAutofill, info: BasicInfo) returns (newAmounts: YearMap, newGross: YearMap)
    ensures newAmounts == NewIncome(line, book, s, info) && newGross == NewGross(s, info)
  {
    var k := Projection.FilledCount(info, s.endAge);
    newAmounts := FillYears(map[], info.startYear, k, AutofillValues(line, book, s, info));
    newGross := FillYears(map[], info.startYear, k, GrossAmounts(s, info.startYear));
  }

  /** `applyAutofillSettings`: the `forEach` over the filled years, then the merge into every line with the id. */
  method ApplyAutofill(items: seq<IncomeItem>, book: Book, id: string, s: IncomeAutofill, info: BasicInfo) returns (r: seq<IncomeItem>)
    ensures r == Autofilled(items, book, id, s, info)
  {
    r := items;
    if id != "" {
      var found := FirstWhere(items, HasId(id));
      if found.Some? {
        var newAmounts, newGross := FillNew(items[found.value], book, s, info);
        r := MapWhere(items, HasId(id), MergeFill(book, info, newAmounts, newGross));
      }
    }
  }

  // ---------------------------------------------------------------------------
  // Blur
  // ---------------------------------------------------------------------------

  /** A line with `gross` entered for `year`: the gross amount kept, the take-home pay of `occupation` shown. */
  function Entered(year: int, gross: real, occupation: Occupation): IncomeItem -> IncomeItem
  {
    (e: IncomeItem) =>
      e.(originalAmounts := Some(OrEmpty(e.originalAmounts)[year := gross]),
         amounts := e.amounts[year := Calculations.NetIncome(gross, occupation).netIncome])
  }

  /**
   * `handleAmountBlur`: only in the personal section and only when the first
   * line with the id is a target line, every line with the id keeps the
   * entered gross amount and shows its take-home pay for `year`.
   */
  function IncomeBlurred(items: seq<IncomeItem>, book: Book, id: string, year: int, value: real, info: BasicInfo): (r: seq<IncomeItem>)
    ensures |r| == |items|
    ensures forall j :: 0 <= j < |items| && items[j].id != id ==> r[j] == items[j]
    ensures book == Corporate || FirstWhere(items, HasId(id)).None? ==> r == items
    ensures FirstWhere(items, HasId(id)).Some? && !IsNetIncomeTarget(items[FirstWhere(items, HasId(id)).value].name, info) ==> r == items
    ensures book == Personal && FirstWhere(items, HasId(id)).Some? && IsNetIncomeTarget(items[FirstWhere(items, HasId(id)).value].name, info) ==>
              forall j :: 0 <= j < |items| && items[j].id == id ==>
                var occupation := EarnerOccupation(items[FirstWhere(items, HasId(id)).value].name, info);
                r[j] == items[j].(originalAmounts := Some(OrEmpty(items[j].originalAmounts)[year := value]),
                                  amounts := items[j].amounts[year := Calculations.NetIncome(value, occupation).netIncome])
  {
    if book == Corporate then items
    else match FirstWhere(items, HasId(id))
      case None => items
      case Some(i) =>
        if IsNetIncomeTarget(items[i].name, info) then MapWhere(items, HasId(id), Entered(year, value, EarnerOccupation(items[i].name, info)))
        else items
  }

  /**
   * After a blur on a personal target line the line holds the entered gross
   * amount and its take-home pay for the year, and every other year is as it
   * was.
   */
  lemma BlurKeepsGrossAndNet(items: seq<IncomeItem>, id: string, year: int, value: real, info: BasicInfo, j: nat, y: int)
    requires FirstWhere(items, HasId(id)) == Some(j) && IsNetIncomeTarget(items[j].name, info)
    ensures var line := IncomeBlurred(items, Personal, id, year, value, info)[j];
            GrossAndNet(line, info, year) && line.originalAmounts.value[year] == value
            && (y != year ==> (y in line.amounts <==> y in items[j].amounts) && (y in items[j].amounts ==> line.amounts[y] == items[j].amounts[y]))
  {
  }

  // ---------------------------------------------------------------------------
  // Investment fields and new lines
  // ---------------------------------------------------------------------------

  function WithRatio(value: real): IncomeItem -> IncomeItem
  {
    (e: IncomeItem) => e.(investmentRatio := value)
  }

  function WithCap(value: real): IncomeItem -> IncomeItem
  {
    (e: IncomeItem) => e.(maxInvestmentAmount := value)
  }

  /** `handleInvestmentRatioChange`: the ratio of every line with the id becomes `value`; nothing else changes. */
  function RatioSet(items: seq<IncomeItem>, id: string, value: real): (r: seq<IncomeItem>)
    ensures |r| == |items|
    ensures forall j :: 0 <= j < |items| ==>
              r[j] == items[j].(investmentRatio := r[j].investmentRatio)
              && r[j].investmentRatio == if items[j].id == id then value else items[j].investmentRatio
  {
    MapWhere(items, HasId(id), WithRatio(value))
  }

  /** `handleMaxInvestmentAmountChange`: the cap of every line with the id becomes `value`; nothing else changes. */
  function CapSet(items: seq<IncomeItem>, id: string, value: real): (r: seq<IncomeItem>)
    ensures |r| == |items|
    ensures forall j :: 0 <= j < |items| ==>
              r[j] == items[j].(maxInvestmentAmount := r[j].maxInvestmentAmount)
              && r[j].maxInvestmentAmount == if items[j].id == id then value else items[j].maxInvestmentAmount
  {
    MapWhere(items, HasId(id), WithCap(value))
  }

  /** The two setters touch different fields: their order does not matter, and a second ratio overrides the first. */
  lemma SettersCommute(items: seq<IncomeItem>, id: string, other: string, ratio: real, ratio2: real, cap: real)
    ensures CapSet(RatioSet(items, id, ratio), other, cap) == RatioSet(CapSet(items, other, cap), id, ratio)
    ensures RatioSet(RatioSet(items, id, ratio), id, ratio2) == RatioSet(items, id, ratio2)
  {
    var a := CapSet(RatioSet(items, id, ratio), other, cap);
    var b := RatioSet(CapSet(items, other, cap), id, ratio);
    assert |a| == |b|;
    assert forall j :: 0 <= j < |a| ==> a[j] == b[j];
    var c := RatioSet(RatioSet(items, id, ratio), id, ratio2);
    var d := RatioSet(items, id, ratio2);
    assert forall j :: 0 <= j < |c| ==> c[j] == d[j];
  }

  /** `addIncomeItem`: an empty line "その他" at the end with the next id and the default investment ratio and cap. */
  function IncomeAdded(items: seq<IncomeItem>, p: Parameters): (r: seq<IncomeItem>)
    ensures |r| == |items| + 1 && r[..|items|] == items
    ensures r[|items|] == IncomeItem(ItemIds.NextId(ItemIds.Ids(items, (l: IncomeItem) => l.id)), "その他", "income", "income", map[], None,
                                     OrDefaultReal(p.investmentRatio, 10.0), OrDefaultReal(p.maxInvestmentAmount, 100.0), false)
  {
    items + [IncomeItem(ItemIds.NextId(ItemIds.Ids(items, (l: IncomeItem) => l.id)), "その他", "income", "income", map[], None,
                        OrDefaultReal(p.investmentRatio, 10.0), OrDefaultReal(p.maxInvestmentAmount, 100.0), false)]
  }

  /**
   * While every id is numeric the new line's id is new; the new line invests
   * the parameters' ratio and cap, or 10% up to 100万円 where they are unset.
   */
  lemma IncomeAddedFresh(items: seq<IncomeItem>, p: Parameters)
    requires forall i :: 0 <= i < |items| ==> NumberOf(items[i].id).Some?
    ensures forall i :: 0 <= i < |items| ==> items[i].id != IncomeAdded(items, p)[|items|].id
    ensures var line := IncomeAdded(items, p)[|items|];
            (p.investmentRatio == 0.0 ==> line.investmentRatio == 10.0)
            && (p.investmentRatio != 0.0 ==> line.investmentRatio == p.investmentRatio)
            && (p.maxInvestmentAmount == 0.0 ==> line.maxInvestmentAmount == 100.0)
            && (p.maxInvestmentAmount != 0.0 ==> line.maxInvestmentAmount == p.maxInvestmentAmount)
  {
    ItemIds.NextIdFresh(ItemIds.Ids(items, (l: IncomeItem) => l.id));
  }
}
