/**
 * The expense form's table edits. Each handler works on one section of the
 * expense tables (`expenseData[section]`) and leaves the other section as it
 * is; the blur handler is followed by the store's rebuild
 * (`Store.Simulator.SyncCashFlow`).
 */
module ExpenseForm {
  import opened Money
  import opened SimulatorTypes
  import opened Escalation
  import Projection
  import ItemIds

  function HasId(id: string): ExpenseItem -> bool
  {
    (e: ExpenseItem) => e.id == id
  }

  /** The line put in place of every line with the id. */
  function Replace(line: ExpenseItem): ExpenseItem -> ExpenseItem
  {
    (e: ExpenseItem) => line
  }

  // ---------------------------------------------------------------------------
  // Autofill
  // ---------------------------------------------------------------------------

  datatype AutofillSettings = AutofillSettings(initialAmount: real, endAge: int)

  /** The modal's initial settings: 100万円 a year until age 60. */
  const DefaultAutofill: AutofillSettings := AutofillSettings(100.0, 60)

  /** The escalated autofill amount of each year, under the rule of the line being filled. */
  function AutofillAmounts(line: ExpenseItem, initial: real, p: Parameters, startYear: int): int -> real
  {
    (y: int) => Escalated(initial, RateFor(line.category, line.kind), p, y - startYear)
  }

  /** The amounts the autofill writes for `line`: its escalated value in every filled year. */
  function NewAmounts(line: ExpenseItem, s: AutofillSettings, info: BasicInfo, p: Parameters): (r: YearMap)
    ensures forall y :: y in r <==> info.startYear <= y < info.startYear + Projection.FilledCount(info, s.endAge)
    ensures forall y :: y in r ==> r[y] == Escalated(s.initialAmount, RateFor(line.category, line.kind), p, y - info.startYear)
  {
    var f := AutofillAmounts(line, s.initialAmount, p, info.startYear);
    var r := Override(map[], info.startYear, Projection.FilledCount(info, s.endAge), f);
    assert forall y :: y in r ==> r[y] == f(y);
    r
  }

  lemma NewAmountsAt(line: ExpenseItem, s: AutofillSettings, info: BasicInfo, p: Parameters, y: int)
    requires info.startYear <= y < info.startYear + Projection.FilledCount(info, s.endAge)
    ensures y in NewAmounts(line, s, info, p)
    ensures NewAmounts(line, s, info, p)[y] == Escalated(s.initialAmount, RateFor(line.category, line.kind), p, y - info.startYear)
  {
  }

  /** The raw amounts the autofill writes: the initial amount in every filled year. */
  function NewRaw(s: AutofillSettings, info: BasicInfo): (r: YearMap)
    ensures forall y :: y in r <==> info.startYear <= y < info.startYear + Projection.FilledCount(info, s.endAge)
    ensures forall y :: y in r ==> r[y] == s.initialAmount
  {
    var r := Override(map[], info.startYear, Projection.FilledCount(info, s.endAge), Constant(s.initialAmount));
    assert forall y :: y in r ==> r[y] == Constant(s.initialAmount)(y);
    r
  }

  /** `{...i.amounts, ...newAmounts}` and `{...i._rawAmounts, ...newRawAmounts}`. */
  function MergeFill(newAmounts: YearMap, newRaw: YearMap): ExpenseItem -> ExpenseItem
  {
    (e: ExpenseItem) => e.(amounts := Merge(e.amounts, newAmounts), rawAmounts := Some(Merge(OrEmpty(e.rawAmounts), newRaw)))
  }

  /**
   * `applyAutofillSettings`: the filled years written over every line with
   * the id, escalated under the rule of the first line with the id.
   */
  function Autofilled(items: seq<ExpenseItem>, id: string, s: AutofillSettings, info: BasicInfo, p: Parameters): (r: seq<ExpenseItem>)
    ensures |r| == |items|
    ensures forall j :: 0 <= j < |items| && items[j].id != id ==> r[j] == items[j]
    ensures id == "" ==> r == items
    ensures id != "" ==>
              forall j :: 0 <= j < |items| && items[j].id == id ==>
                var first := items[FirstWhere(items, HasId(id)).value];
                r[j] == items[j].(amounts := Merge(items[j].amounts, NewAmounts(first, s, info, p)),
                                  rawAmounts := Some(Merge(OrEmpty(items[j].rawAmounts), NewRaw(s, info))))
  {
    if id == "" then items
    else match FirstWhere(items, HasId(id))
      case None => items
      case Some(i) => MapWhere(items, HasId(id), MergeFill(NewAmounts(items[i], s, info, p), NewRaw(s, info)))
  }

  /**
   * Every line with the id gets the initial amount as its raw amount and its
   * escalated value as its amount in each projected year up to `endAge`,
   * escalated under the rule of the first line with the id.
   */
  lemma AutofillFilledYear(items: seq<ExpenseItem>, id: string, s: AutofillSettings, info: BasicInfo, p: Parameters, j: nat, y: int)
    requires id != "" && j < |items| && items[j].id == id
    requires info.startYear <= y < info.startYear + Projection.FilledCount(info, s.endAge)
    ensures var i := FirstWhere(items, HasId(id)).value;
            var line := Autofilled(items, id, s, info, p)[j];
            y in line.amounts && line.amounts[y] == Escalated(s.initialAmount, RateFor(items[i].category, items[i].kind), p, y - info.startYear)
            && line.rawAmounts.Some? && y in line.rawAmounts.value && line.rawAmounts.value[y] == s.initialAmount
  {
    assert HasId(id)(items[j]);
    var first := items[FirstWhere(items, HasId(id)).value];
    var amounts := NewAmounts(first, s, info, p);
    var raw := NewRaw(s, info);
    var line := Autofilled(items, id, s, info, p)[j];
    assert line.amounts == Merge(items[j].amounts, amounts);
    assert line.rawAmounts == Some(Merge(OrEmpty(items[j].rawAmounts), raw));
    assert y in amounts && y in raw;
    assert line.amounts[y] == amounts[y];
    NewAmountsAt(first, s, info, p, y);
    assert line.rawAmounts.value[y] == raw[y] == s.initialAmount;
  }

  /** Every other year of a line with the id keeps what it had. */
  lemma AutofillOtherYear(items: seq<ExpenseItem>, id: string, s: AutofillSettings, info: BasicInfo, p: Parameters, j: nat, y: int)
    requires id != "" && j < |items| && items[j].id == id
    requires !(info.startYear <= y < info.startYear + Projection.FilledCount(info, s.endAge))
    ensures var line := Autofilled(items, id, s, info, p)[j];
            (y in line.amounts <==> y in items[j].amounts) && (y in items[j].amounts ==> line.amounts[y] == items[j].amounts[y])
  {
    assert HasId(id)(items[j]);
  }

  /** With an end age below the current age nothing is filled: the amounts stay as they were. */
  lemma AutofillBeforeCurrentAge(items: seq<ExpenseItem>, id: string, s: AutofillSettings, info: BasicInfo, p: Parameters)
    requires s.endAge < info.currentAge
    ensures forall j :: 0 <= j < |items| ==> Autofilled(items, id, s, info, p)[j].amounts == items[j].amounts
  {
    forall j | 0 <= j < |items| && items[j].id == id && id != ""
      ensures Autofilled(items, id, s, info, p)[j].amounts == items[j].amounts
    {
      assert HasId(id)(items[j]);
      var first := items[FirstWhere(items, HasId(id)).value];
      assert NewAmounts(first, s, info, p) == map[];
      assert Merge(items[j].amounts, map[]) == items[j].amounts;
    }
  }

  /** The autofill's years loop: the new amounts and raw amounts written year by year. */
  method FillNew(line: ExpenseItem, s: AutofillSettings, info: BasicInfo, p: Parameters) returns (newAmounts: YearMap, newRaw: YearMap)
    ensures newAmounts == NewAmounts(line, s, info, p) && newRaw == NewRaw(s, info)
  {
    var k := Projection.FilledCount(info, s.endAge);
    newAmounts := FillYears(map[], info.startYear, k, AutofillAmounts(line, s.initialAmount, p, info.startYear));
    newRaw := FillYears(map[], info.startYear, k, Constant(s.initialAmount));
  }

  /** `applyAutofillSettings`: the `forEach` over the filled years, then the merge into every line with the id. */
  method ApplyAutofill(items: seq<ExpenseItem>, id: string, s: AutofillSettings, info: BasicInfo, p: Parameters) returns (r: seq<ExpenseItem>)
    ensures r == Autofilled(items, id, s, info, p)
  {
    r := items;
    if id != "" {
      var found := FirstWhere(items, HasId(id));
      if found.Some? {
        var newAmounts, newRaw := FillNew(items[found.value], s, info, p);
        r := MapWhere(items, HasId(id), MergeFill(newAmounts, newRaw));
      }
    }
  }

  // ---------------------------------------------------------------------------
  // Blur
  // ---------------------------------------------------------------------------

  /** The first line with the id, with `value` entered for `year`. */
  function BlurredLine(line: ExpenseItem, year: int, value: real, p: Parameters, startYear: int): (r: ExpenseItem)
    ensures r.rawAmounts.Some? && r.rawAmounts.value == OrEmpty(line.rawAmounts)[year := value]
    ensures r.amounts == line.amounts[year := Escalated(value, BlurRateFor(line.category, line.kind), p, year - startYear)]
    ensures r == line.(rawAmounts := r.rawAmounts, amounts := r.amounts)
  {
    line.(rawAmounts := Some(OrEmpty(line.rawAmounts)[year := value]),
          amounts := line.amounts[year := Escalated(value, BlurRateFor(line.category, line.kind), p, year - startYear)])
  }

  /**
   * `handleExpenseBlur`: the value becomes the raw amount of `year` and its
   * escalated value the amount; every line with the id is replaced by the
   * first one so updated, and nothing else changes.
   */
  function ExpenseBlurred(items: seq<ExpenseItem>, id: string, year: int, value: real, p: Parameters, startYear: int): (r: seq<ExpenseItem>)
    ensures |r| == |items|
    ensures forall j :: 0 <= j < |items| && items[j].id != id ==> r[j] == items[j]
    ensures FirstWhere(items, HasId(id)).None? ==> r == items
    ensures FirstWhere(items, HasId(id)).Some? ==>
              forall j :: 0 <= j < |items| && items[j].id == id ==>
                r[j] == BlurredLine(items[FirstWhere(items, HasId(id)).value], year, value, p, startYear)
  {
    match FirstWhere(items, HasId(id))
      case None => items
      case Some(i) => MapWhere(items, HasId(id), Replace(BlurredLine(items[i], year, value, p, startYear)))
  }

  /** A line no rate applies to keeps the entered value as its amount. */
  lemma BlurWithoutRate(line: ExpenseItem, year: int, value: real, p: Parameters, startYear: int)
    requires BlurRateFor(line.category, line.kind) == NoRate
    ensures BlurredLine(line, year, value, p, startYear).amounts[year] == value
  {
  }

  /** On a line whose type follows its category, a blurred year is what re-deriving the line under `setParameters` gives. */
  lemma BlurAgreesWithRederive(line: ExpenseItem, year: int, value: real, p: Parameters, startYear: int)
    requires line.kind == KindFor(line.category)
    ensures Rederived(BlurredLine(line, year, value, p, startYear), p, startYear).amounts[year]
            == BlurredLine(line, year, value, p, startYear).amounts[year]
  {
    RulesAgreeOnConsistentLines(line.category);
  }

  // ---------------------------------------------------------------------------
  // Category change
  // ---------------------------------------------------------------------------

  function Recategorized(category: string): ExpenseItem -> ExpenseItem
  {
    (e: ExpenseItem) => e.(category := category, kind := KindFor(category))
  }

  /**
   * `handleCategoryChange`. A first line with raw amounts is re-derived under
   * the new category and put in place of every line with the id; otherwise
   * every line with the id only takes the new category and its type.
   */
  function CategoryChanged(items: seq<ExpenseItem>, id: string, category: string, p: Parameters, startYear: int): (r: seq<ExpenseItem>)
    ensures |r| == |items|
    ensures forall j :: 0 <= j < |items| && items[j].id != id ==> r[j] == items[j]
    ensures forall j :: 0 <= j < |items| && items[j].id == id ==>
              var first := items[FirstWhere(items, HasId(id)).value];
              r[j] == if first.rawAmounts.Some? then Rederived(first.(category := category, kind := KindFor(category)), p, startYear)
                      else items[j].(category := category, kind := KindFor(category))
  {
    match FirstWhere(items, HasId(id))
      case None => items
      case Some(i) =>
        if items[i].rawAmounts.Some? then MapWhere(items, HasId(id), Replace(Rederived(Recategorized(category)(items[i]), p, startYear)))
        else MapWhere(items, HasId(id), Recategorized(category))
  }

  /**
   * After a category change every year with a raw amount holds the raw
   * amount escalated by the new category's rate (the rate the table shows
   * for the category), and the raw amounts are kept.
   */
  lemma CategoryChangeRederives(items: seq<ExpenseItem>, id: string, category: string, p: Parameters, startYear: int, j: nat, y: int)
    requires j < |items| && items[j].id == id
    requires var first := items[FirstWhere(items, HasId(id)).value];
             first.rawAmounts.Some? && y in first.rawAmounts.value
    ensures var first := items[FirstWhere(items, HasId(id)).value];
            var line := CategoryChanged(items, id, category, p, startYear)[j];
            line.rawAmounts == first.rawAmounts
            && y in line.amounts && line.amounts[y] == Escalated(first.rawAmounts.value[y], LabelRate(category), p, y - startYear)
  {
    var first := items[FirstWhere(items, HasId(id)).value];
    var line := CategoryChanged(items, id, category, p, startYear)[j];
    assert line == Rederived(first.(category := category, kind := KindFor(category)), p, startYear);
    RecategorizedRawYear(first, category, p, startYear, y);
  }

  /** Re-deriving a line with raw amounts under a new category escalates each raw year by that category's rate. */
  lemma RecategorizedRawYear(first: ExpenseItem, category: string, p: Parameters, startYear: int, y: int)
    requires first.rawAmounts.Some? && y in first.rawAmounts.value
    ensures var line := Rederived(first.(category := category, kind := KindFor(category)), p, startYear);
            line.rawAmounts == first.rawAmounts
            && y in line.amounts && line.amounts[y] == Escalated(first.rawAmounts.value[y], LabelRate(category), p, y - startYear)
  {
    RulesAgreeOnConsistentLines(category);
  }

  /** When the first line with the id has no raw amounts, no amount changes. */
  lemma CategoryChangeWithoutRaw(items: seq<ExpenseItem>, id: string, category: string, p: Parameters, startYear: int, j: nat)
    requires j < |items| && items[j].id == id
    requires items[FirstWhere(items, HasId(id)).value].rawAmounts.None?
    ensures var line := CategoryChanged(items, id, category, p, startYear)[j];
            line.amounts == items[j].amounts && line.rawAmounts == items[j].rawAmounts
  {
    assert HasId(id)(items[j]);
  }

  /** `handleCategoryChange` with the loop over the raw years that rewrites the amounts. */
  method ChangeCategory(items: seq<ExpenseItem>, id: string, category: string, p: Parameters, startYear: int) returns (r: seq<ExpenseItem>)
    ensures r == CategoryChanged(items, id, category, p, startYear)
  {
    r := items;
    var found := FirstWhere(items, HasId(id));
    if found.Some? {
      if items[found.value].rawAmounts.Some? {
        var line := RederiveAmounts(Recategorized(category)(items[found.value]), p, startYear);
        r := MapWhere(items, HasId(id), Replace(line));
      } else {
        r := MapWhere(items, HasId(id), Recategorized(category));
      }
    }
  }

  // ---------------------------------------------------------------------------
  // New line and rate label
  // ---------------------------------------------------------------------------

  /** `addExpenseItem`: an empty line "その他" of category other at the end, with the next id. */
  function ExpenseAdded(items: seq<ExpenseItem>): (r: seq<ExpenseItem>)
    ensures |r| == |items| + 1 && r[..|items|] == items
    ensures r[|items|] == ExpenseItem(ItemIds.NextId(ItemIds.Ids(items, (l: ExpenseItem) => l.id)), "その他", "other", "other", map[], Some(map[]))
  {
    items + [ExpenseItem(ItemIds.NextId(ItemIds.Ids(items, (l: ExpenseItem) => l.id)), "その他", "other", "other", map[], Some(map[]))]
  }

  /** While every id is numeric, the new line's id is new. */
  lemma ExpenseAddedFresh(items: seq<ExpenseItem>)
    requires forall i :: 0 <= i < |items| ==> NumberOf(items[i].id).Some?
    ensures forall i :: 0 <= i < |items| ==> items[i].id != ExpenseAdded(items)[|items|].id
  {
    ItemIds.NextIdFresh(ItemIds.Ids(items, (l: ExpenseItem) => l.id));
  }

  /** A rate as the table shows it: the rate and a percent sign, or "0%". */
  function RateText(r: Rate, p: Parameters, fmt: real -> string): string
  {
    match r
      case InflationRate => fmt(p.inflationRate) + "%"
      case EducationRate => fmt(p.educationCostIncreaseRate) + "%"
      case NoRate => "0%"
  }

  /** `formatInflationRate`. */
  function FormatInflationRate(category: string, p: Parameters, fmt: real -> string): string
  {
    if category == "education" then fmt(p.educationCostIncreaseRate) + "%"
    else if category == "living" || category == "housing" || category == "business" || category == "office" then fmt(p.inflationRate) + "%"
    else "0%"
  }

  /**
   * The label shows the rate the escalation rule applies to every line whose
   * type is the one its category gives or "other", which covers every line
   * the forms create.
   */
  lemma FormatAgreesWithRule(category: string, kind: string, p: Parameters, fmt: real -> string)
    requires kind == KindFor(category) || kind == "other"
    ensures FormatInflationRate(category, p, fmt) == RateText(RateFor(category, kind), p, fmt)
  {
  }

  /** A line whose type disagrees can be escalated without a label: type living under category other. */
  lemma FormatDisagreesOnMixedLine(p: Parameters, fmt: real -> string)
    ensures FormatInflationRate("other", p, fmt) == "0%" && RateFor("other", "living") == InflationRate
  {
  }
}
