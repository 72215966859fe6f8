/**
 * The life-event form: the schema an entered event must satisfy, the
 * category lists per type, submitting and resetting the form, and moving
 * an event up the list.
 */
module LifeEventForm {
  import opened Money
  import opened SimulatorTypes
  import Store

  /** The form's values as entered; the type and the source are still the option strings. */
  datatype FormData = FormData(
    year: int,
    description: string,
    kind: string,
    category: string,
    amount: real,
    source: string)

  const OtherCategory: string := "その他"

  function KindText(k: EventType): string
  {
    if k == IncomeEvent then "income" else "expense"
  }

  function SourceText(s: EventSource): string
  {
    match s
      case PersonalSource => "personal"
      case CorporateSource => "corporate"
      case PersonalInvestmentSource => "personal_investment"
      case CorporateInvestmentSource => "corporate_investment"
  }

  function KindOf(text: string): Option<EventType>
  {
    if text == "income" then Some(IncomeEvent) else if text == "expense" then Some(ExpenseEvent) else None
  }

  function SourceOf(text: string): Option<EventSource>
  {
    if text == "personal" then Some(PersonalSource)
    else if text == "corporate" then Some(CorporateSource)
    else if text == "personal_investment" then Some(PersonalInvestmentSource)
    else if text == "corporate_investment" then Some(CorporateInvestmentSource)
    else None
  }

  /** `lifeEventSchema`: a description, a non-negative amount, one of the two types and one of the four sources. */
  predicate Valid(d: FormData)
  {
    |d.description| >= 1 && d.amount >= 0.0
    && d.kind in {"income", "expense"}
    && d.source in {"personal", "corporate", "personal_investment", "corporate_investment"}
  }

  /** The schema's parse: the event the values describe, or None when the schema rejects them. */
  function Parse(d: FormData): (r: Option<LifeEvent>)
    ensures r.Some? <==> Valid(d)
    ensures r.Some? ==> r.value.year == d.year && r.value.description == d.description && r.value.category == d.category
                        && r.value.amount == d.amount && KindText(r.value.kind) == d.kind && SourceText(r.value.source) == d.source
  {
    if |d.description| >= 1 && d.amount >= 0.0 && KindOf(d.kind).Some? && SourceOf(d.source).Some? then
      Some(LifeEvent(d.year, d.description, KindOf(d.kind).value, d.category, d.amount, SourceOf(d.source).value))
    else None
  }

  /** The values an event is entered with. */
  function FormOf(e: LifeEvent): FormData
  {
    FormData(e.year, e.description, KindText(e.kind), e.category, e.amount, SourceText(e.source))
  }

  /** Every event with a description and a non-negative amount can be entered, and parsing gives it back. */
  lemma ParseFormOf(e: LifeEvent)
    requires |e.description| >= 1 && e.amount >= 0.0
    ensures Parse(FormOf(e)) == Some(e)
  {
  }

  /** Values the schema accepts are the values of the event they parse to. */
  lemma FormOfParse(d: FormData)
    requires Valid(d)
    ensures FormOf(Parse(d).value) == d
  {
  }

  // ---------------------------------------------------------------------------
  // Categories
  // ---------------------------------------------------------------------------

  const IncomeCategories: seq<string> := ["給与", "賞与", "副業", "その他"]
  const ExpenseCategories: seq<string> := ["生活費", "住居費", "教育費", "医療費", "旅行", "その他"]

  /** `categories[eventType] ?? []`. */
  function CategoriesFor(kind: string): seq<string>
  {
    if kind == "income" then IncomeCategories else if kind == "expense" then ExpenseCategories else []
  }

  /** The category a type change resets to is offered for both types. */
  lemma OtherOfferedForBothTypes()
    ensures OtherCategory in CategoriesFor("income") && OtherCategory in CategoriesFor("expense")
  {
    assert IncomeCategories[3] == OtherCategory;
    assert ExpenseCategories[5] == OtherCategory;
  }

  /** The years offered: the current year and the fifty after it. */
  function YearOptions(currentYear: int): (r: seq<int>)
    ensures |r| == 51
    ensures forall i :: 0 <= i < 51 ==> r[i] == currentYear + i
  {
    seq(51, i requires 0 <= i < 51 => currentYear + i)
  }

  /** The values the form starts with and is reset to after a submit; the description is empty (absent at first). */
  function ResetValues(currentYear: int): FormData
  {
    FormData(currentYear, "", "expense", OtherCategory, 0.0, "personal")
  }

  /** The reset form offers its year and its category, and the schema rejects it until a description is entered. */
  lemma ResetOffersItsValues(currentYear: int)
    ensures var d := ResetValues(currentYear);
            d.year in YearOptions(currentYear) && d.category in CategoriesFor(d.kind) && !Valid(d)
            && Valid(d.(description := "x"))
  {
    assert YearOptions(currentYear)[0] == currentYear;
    OtherOfferedForBothTypes();
  }

  /** The state of the form: its current values. */
  class EventForm {
    const currentYear: int
    var values: FormData

    constructor(currentYear: int)
      ensures this.currentYear == currentYear && values == ResetValues(currentYear)
    {
      this.currentYear := currentYear;
      values := ResetValues(currentYear);
    }

    /** Choosing a type also resets the category to その他. */
    method ChangeType(kind: string)
      modifies this`values
      ensures values == old(values).(kind := kind, category := OtherCategory)
    {
      values := values.(kind := kind, category := OtherCategory);
    }

    /**
     * `handleSubmit(onSubmit)`: values the schema accepts are added as an
     * event and the form is reset; otherwise nothing changes.
     */
    method Submit(sim: Store.Simulator)
      modifies this`values, sim`lifeEvents
      ensures Parse(old(values)).Some? ==>
                sim.lifeEvents == old(sim.lifeEvents) + [Parse(old(values)).value] && values == ResetValues(currentYear)
      ensures Parse(old(values)).None? ==> sim.lifeEvents == old(sim.lifeEvents) && values == old(values)
    {
      var parsed := Parse(values);
      if parsed.Some? {
        sim.AddLifeEvent(parsed.value);
        values := ResetValues(currentYear);
      }
    }
  }

  // ---------------------------------------------------------------------------
  // Moving an event up
  // ---------------------------------------------------------------------------

  /** The list with the event at `index` and the one before it exchanged; unchanged at index 0. */
  function MovedUp<T>(xs: seq<T>, index: nat): (r: seq<T>)
    requires index < |xs|
  {
    if index == 0 then xs else xs[..index - 1] + [xs[index], xs[index - 1]] + xs[index + 1..]
  }

  /** Moving up exchanges two neighbours, keeps every other position and keeps the events themselves. */
  lemma MovedUpPositions<T>(xs: seq<T>, index: nat)
    requires 0 < index < |xs|
    ensures var r := MovedUp(xs, index);
            |r| == |xs| && r[index - 1] == xs[index] && r[index] == xs[index - 1]
            && (forall k :: 0 <= k < |xs| && k != index && k != index - 1 ==> r[k] == xs[k])
            && multiset(r) == multiset(xs)
  {
    var front, back := xs[..index - 1], xs[index + 1..];
    assert xs == front + [xs[index - 1], xs[index]] + back;
    assert MovedUp(xs, index) == front + [xs[index], xs[index - 1]] + back;
  }

  /** Moving up at the same index twice restores the list. */
  lemma MovedUpTwice<T>(xs: seq<T>, index: nat)
    requires 0 < index < |xs|
    ensures MovedUp(MovedUp(xs, index), index) == xs
  {
    MovedUpPositions(xs, index);
    MovedUpPositions(MovedUp(xs, index), index);
  }

  /** The in-place exchange of two slots of the copied array. */
  method SwapUp<T>(a: array<T>, index: nat)
    requires 0 < index < a.Length
    modifies a
    ensures a[..] == MovedUp(old(a[..]), index)
  {
    a[index], a[index - 1] := a[index - 1], a[index];
    assert a[..] == old(a[..])[..index - 1] + [old(a[index]), old(a[index - 1])] + old(a[..])[index + 1..];
  }

  /** The move-up button: copy the events, exchange the two slots, store the copy; a no-op for the first event. */
  method MoveUp(sim: Store.Simulator, index: nat)
    requires index < |sim.lifeEvents|
    modifies sim`lifeEvents
    ensures sim.lifeEvents == MovedUp(old(sim.lifeEvents), index)
  {
    var events := sim.lifeEvents;
    var temp := new LifeEvent[|events|](k requires 0 <= k < |events| => events[k]);
    assert temp[..] == events;
    if index > 0 {
      SwapUp(temp, index);
      sim.lifeEvents := temp[..];
    }
  }
}
