/**
 * How an expense line's entered (raw) amounts become the amounts the
 * projection uses: living, housing, business and office costs rise with the
 * inflation rate, education costs with the education cost increase rate,
 * and anything else stays as entered. Escalated amounts are rounded to
 * 0.1万円 and escalate from the start year.
 */
module Escalation {
  import opened Money
  import opened SimulatorTypes

  datatype Rate = InflationRate | EducationRate | NoRate

  predicate InflationCategory(s: string)
  {
    s == "living" || s == "housing" || s == "business" || s == "office"
  }

  predicate LivingOrHousing(s: string)
  {
    s == "living" || s == "housing"
  }

  predicate BusinessOrOffice(s: string)
  {
    s == "business" || s == "office"
  }

  /** The rule of `setParameters` and of the expense autofill: category or type, inflation first. */
  function RateFor(category: string, kind: string): Rate
  {
    if InflationCategory(category) || InflationCategory(kind) then InflationRate
    else if category == "education" || kind == "education" then EducationRate
    else NoRate
  }

  /** The rule of the expense blur handlers: living, housing, education, business, office, in that order. */
  function BlurRateFor(category: string, kind: string): Rate
  {
    if category == "living" || kind == "living" then InflationRate
    else if category == "housing" || kind == "housing" then InflationRate
    else if category == "education" || kind == "education" then EducationRate
    else if category == "business" || kind == "business" then InflationRate
    else if category == "office" || kind == "office" then InflationRate
    else NoRate
  }

  /** The type `handleCategoryChange` gives a line of `category`. */
  function KindFor(category: string): (r: string)
    ensures r == category || r == "other"
    ensures r == "other" <==> !(InflationCategory(category) || category == "education") || category == "other"
  {
    if category == "living" then "living"
    else if category == "housing" then "housing"
    else if category == "education" then "education"
    else if category == "business" then "business"
    else if category == "office" then "office"
    else "other"
  }

  /** The rate a category shows in the expense table (`formatInflationRate`), from the category alone. */
  function LabelRate(category: string): Rate
  {
    if category == "education" then EducationRate
    else if InflationCategory(category) then InflationRate
    else NoRate
  }

  /**
   * The two orders disagree exactly on a line where one of category and type
   * is education, the other business or office, and neither is living or
   * housing.
   */
  lemma BlurRateDisagrees(category: string, kind: string)
    ensures BlurRateFor(category, kind) != RateFor(category, kind) <==>
            !LivingOrHousing(category) && !LivingOrHousing(kind)
            && ((category == "education" && BusinessOrOffice(kind)) || (kind == "education" && BusinessOrOffice(category)))
  {
  }

  /** On a line whose type is the one its category gives, all three rules agree. */
  lemma RulesAgreeOnConsistentLines(category: string)
    ensures RateFor(category, KindFor(category)) == LabelRate(category)
    ensures BlurRateFor(category, KindFor(category)) == LabelRate(category)
  {
  }

  function Scaled(amount: real, factor: real): real
  {
    amount * factor
  }

  /** `raw` escalated by `rate` for `yearsSinceStart` years and rounded to 0.1; unchanged when no rate applies. */
  function Escalated(raw: real, rate: Rate, p: Parameters, yearsSinceStart: int): (r: real)
    ensures rate == NoRate ==> r == raw
    ensures rate != NoRate ==> IsTenth(r) && r - 0.05 <= Scaled(raw, RateFactor(rate, p, yearsSinceStart)) < r + 0.05
  {
    if rate == NoRate then raw else Round1(Scaled(raw, RateFactor(rate, p, yearsSinceStart)))
  }

  /** `Math.pow(1 + rate / 100, yearsSinceStart)` for the rate that applies. */
  function RateFactor(rate: Rate, p: Parameters, yearsSinceStart: int): real
  {
    match rate
      case InflationRate => Factor(1.0 + p.inflationRate / 100.0, yearsSinceStart)
      case EducationRate => Factor(1.0 + p.educationCostIncreaseRate / 100.0, yearsSinceStart)
      case NoRate => 1.0
  }

  /** In the start year an escalated amount is the raw amount rounded. */
  lemma EscalatedAtStart(raw: real, rate: Rate, p: Parameters)
    requires rate != NoRate
    ensures Escalated(raw, rate, p, 0) == Round1(raw)
  {
    assert RateFactor(rate, p, 0) == 1.0;
    assert Scaled(raw, 1.0) == raw;
  }

  /** With rates above -100%, a non-negative raw amount stays non-negative. */
  lemma EscalatedNonNegative(raw: real, rate: Rate, p: Parameters, yearsSinceStart: int)
    requires raw >= 0.0 && p.inflationRate > -100.0 && p.educationCostIncreaseRate > -100.0
    ensures Escalated(raw, rate, p, yearsSinceStart) >= 0.0
  {
    if rate != NoRate {
      var b := if rate == InflationRate then 1.0 + p.inflationRate / 100.0 else 1.0 + p.educationCostIncreaseRate / 100.0;
      PowPositive(b, if yearsSinceStart >= 0 then yearsSinceStart else -yearsSinceStart);
      assert RateFactor(rate, p, yearsSinceStart) > 0.0;
      MulNonNegative(raw, RateFactor(rate, p, yearsSinceStart));
      Round1NonNegative(Scaled(raw, RateFactor(rate, p, yearsSinceStart)));
    }
  }

  /** The amounts the raw amounts give. */
  function EscalatedMap(raw: YearMap, rate: Rate, p: Parameters, startYear: int): (r: YearMap)
    ensures r.Keys == raw.Keys
  {
    map y | y in raw :: Escalated(raw[y], rate, p, y - startYear)
  }

  /**
   * An expense line with its amounts re-derived from its raw amounts under
   * its own category and type: every year with a raw amount is rewritten,
   * every other year is kept, and a line without raw amounts is unchanged.
   */
  function Rederived(item: ExpenseItem, p: Parameters, startYear: int): (r: ExpenseItem)
    ensures r == item.(amounts := r.amounts)
    ensures item.rawAmounts.None? ==> r == item
    ensures item.rawAmounts.Some? ==>
              (forall y :: y in r.amounts <==> y in item.amounts || y in item.rawAmounts.value)
              && (forall y :: y in item.rawAmounts.value ==>
                    r.amounts[y] == Escalated(item.rawAmounts.value[y], RateFor(item.category, item.kind), p, y - startYear))
              && (forall y :: y in item.amounts && y !in item.rawAmounts.value ==> r.amounts[y] == item.amounts[y])
  {
    if item.rawAmounts.None? then item
    else item.(amounts := Merge(item.amounts, EscalatedMap(item.rawAmounts.value, RateFor(item.category, item.kind), p, startYear)))
  }

  /**
   * Year `y` of `line` holds `value` as its amount and `raw` as its raw
   * amount, and re-deriving the line writes `raw` escalated by the line's own
   * rate there.
   */
  predicate RawYear(line: ExpenseItem, value: real, raw: real, p: Parameters, start: int, y: int)
  {
    y in line.amounts && line.amounts[y] == value
    && line.rawAmounts.Some? && y in line.rawAmounts.value && line.rawAmounts.value[y] == raw
    && y in Rederived(line, p, start).amounts
    && Rederived(line, p, start).amounts[y] == Escalated(raw, RateFor(line.category, line.kind), p, y - start)
  }

  /** A year with both an amount and a raw amount is a raw year of its line. */
  lemma RawYearOf(line: ExpenseItem, p: Parameters, start: int, y: int)
    requires line.rawAmounts.Some? && y in line.rawAmounts.value && y in line.amounts
    ensures RawYear(line, line.amounts[y], line.rawAmounts.value[y], p, start, y)
  {
  }

  /** Re-deriving twice under the same rates gives what re-deriving once gives. */
  lemma RederivedIdempotent(item: ExpenseItem, p: Parameters, startYear: int)
    ensures Rederived(Rederived(item, p, startYear), p, startYear) == Rederived(item, p, startYear)
  {
    var once := Rederived(item, p, startYear);
    if item.rawAmounts.Some? {
      var twice := Rederived(once, p, startYear);
      assert twice.amounts == once.amounts;
    }
  }

  /** A line no rate applies to gets its raw amounts back as its amounts. */
  lemma UnescalatedKeepsRaw(item: ExpenseItem, p: Parameters, startYear: int, y: int)
    requires item.rawAmounts.Some? && y in item.rawAmounts.value && RateFor(item.category, item.kind) == NoRate
    ensures Rederived(item, p, startYear).amounts[y] == item.rawAmounts.value[y]
  {
  }

  /** The `forEach` over the raw years that rewrites the amounts one year at a time. */
  method EscalateYears(amounts: YearMap, raw: YearMap, rate: Rate, p: Parameters, startYear: int) returns (r: YearMap)
    ensures r == Merge(amounts, EscalatedMap(raw, rate, p, startYear))
  {
    r := amounts;
    var left := raw.Keys;
    while left != {}
      invariant left <= raw.Keys
      invariant forall y :: y in r <==> y in amounts || (y in raw && y !in left)
      invariant forall y :: y in raw && y !in left ==> r[y] == Escalated(raw[y], rate, p, y - startYear)
      invariant forall y :: y in amounts && (y !in raw || y in left) ==> r[y] == amounts[y]
      decreases |left|
    {
      NonEmptyHasMember(left);
      var y :| y in left;
      r := r[y := Escalated(raw[y], rate, p, y - startYear)];
      left := left - {y};
    }
    MergeWritten(r, amounts, EscalatedMap(raw, rate, p, startYear));
  }

  method RederiveAmounts(item: ExpenseItem, p: Parameters, startYear: int) returns (r: ExpenseItem)
    ensures r == Rederived(item, p, startYear)
  {
    r := item;
    if item.rawAmounts.Some? {
      var amounts := EscalateYears(item.amounts, item.rawAmounts.value, RateFor(item.category, item.kind), p, startYear);
      r := item.(amounts := amounts);
    }
  }
}
