/**
 * The cash-flow table: the age shown for each year, the text describing
 * the year's family and life events, the two blur handlers of the table
 * (which also rebuild the projection), the CSV export text and the
 * category filter of the table's rows.
 */
module CashFlowForm {
  import opened Money
  import opened SimulatorTypes
  import PensionCalculations
  import Projection
  import IncomeForm
  import ExpenseForm
  import Store

  /** `calculateAge`: the age in `year` of someone who is `currentAge` in `startYear`. */
  function CalculateAge(startYear: int, currentAge: int, year: int): (r: int)
    ensures r == currentAge <==> year == startYear
    ensures r == 0 <==> year == startYear - currentAge
  {
    currentAge + (year - startYear)
  }

  // ---------------------------------------------------------------------------
  // Event descriptions
  // ---------------------------------------------------------------------------

  const MarriageLabel: string := "結婚"
  const EventSeparator: string := "、"

  /** `第n子誕生`: the birth of the n-th child. */
  function BirthLabel(n: nat): string
  {
    "第" + IntText(n) + "子誕生"
  }

  /** The birth labels of year `year` for children born in `birthYears`, numbered from `first`, in order. */
  function BirthLabels(birthYears: seq<int>, first: nat, year: int): seq<string>
    decreases |birthYears|
  {
    if birthYears == [] then []
    else
      BirthLabels(birthYears[..|birthYears| - 1], first, year)
      + (if birthYears[|birthYears| - 1] == year then [BirthLabel(first + |birthYears| - 1)] else [])
  }

  /** An existing child was born `currentAge` years before the start year. */
  function ChildBirthYears(info: BasicInfo): (r: seq<int>)
    ensures |r| == |info.children|
    ensures forall i :: 0 <= i < |r| ==> r[i] == info.startYear - info.children[i].currentAge
  {
    seq(|info.children|, i requires 0 <= i < |info.children| => info.startYear - info.children[i].currentAge)
  }

  /** A planned child is born `yearsFromNow` years after the start year. */
  function PlannedBirthYears(info: BasicInfo): (r: seq<int>)
    ensures |r| == |info.plannedChildren|
    ensures forall i :: 0 <= i < |r| ==> r[i] == info.startYear + info.plannedChildren[i].yearsFromNow
  {
    seq(|info.plannedChildren|, i requires 0 <= i < |info.plannedChildren| => info.startYear + info.plannedChildren[i].yearsFromNow)
  }

  /** A planned marriage with a marriage age falls in the year the user reaches that age. */
  predicate MarriesIn(info: BasicInfo, year: int)
  {
    info.maritalStatus == Planning && info.spouseInfo.Some? && info.spouseInfo.value.marriageAge != 0
    && year == info.startYear + (info.spouseInfo.value.marriageAge - info.currentAge)
  }

  /** The marriage and birth labels of a year: existing children first, planned children numbered after them. */
  function FamilyLabels(info: BasicInfo, year: int): seq<string>
  {
    (if MarriesIn(info, year) then [MarriageLabel] else [])
    + BirthLabels(ChildBirthYears(info), 1, year)
    + BirthLabels(PlannedBirthYears(info), |info.children| + 1, year)
  }

  predicate EventIn(e: LifeEvent, year: int, source: EventSource)
  {
    e.year == year && e.source == source
  }

  /** `desc（+amount万円）` for income, `desc（-amount万円）` otherwise; `fmt` writes a number as the program does. */
  function EventText(e: LifeEvent, fmt: real -> string): string
  {
    e.description + "（" + (if e.kind == IncomeEvent then "+" else "-") + fmt(e.amount) + "万円）"
  }

  /** The texts of the events of the year and source, in list order. */
  function EventTexts(events: seq<LifeEvent>, year: int, source: EventSource, fmt: real -> string): seq<string>
    decreases |events|
  {
    if events == [] then []
    else
      EventTexts(events[..|events| - 1], year, source, fmt)
      + (if EventIn(events[|events| - 1], year, source) then [EventText(events[|events| - 1], fmt)] else [])
  }

  /** The parts of a year's description: family labels only for the personal source, then the events. */
  function DescriptionParts(year: int, info: BasicInfo, events: seq<LifeEvent>, source: EventSource, fmt: real -> string): seq<string>
  {
    (if source == PersonalSource then FamilyLabels(info, year) else []) + EventTexts(events, year, source, fmt)
  }

  /** `getLifeEventDescription`. */
  function LifeEventDescription(year: int, info: BasicInfo, events: seq<LifeEvent>, source: EventSource, fmt: real -> string): string
  {
    Join(DescriptionParts(year, info, events, source, fmt), EventSeparator)
  }

  /** The `forEach` over one list of children, pushing the label of each child born in `year`. */
  method PushBirthLabels(birthYears: seq<int>, first: nat, year: int) returns (labels: seq<string>)
    ensures labels == BirthLabels(birthYears, first, year)
  {
    labels := [];
    var i := 0;
    while i < |birthYears|
      invariant 0 <= i <= |birthYears|
      invariant labels == BirthLabels(birthYears[..i], first, year)
    {
      assert birthYears[..i + 1][..i] == birthYears[..i];
      if year == birthYears[i] {
        labels := labels + [BirthLabel(first + i)];
      }
      i := i + 1;
    }
    assert birthYears[..i] == birthYears;
  }

  /** The `filter` and `forEach` over the life events, pushing the text of each event of the year and source. */
  method PushEventTexts(events: seq<LifeEvent>, year: int, source: EventSource, fmt: real -> string) returns (texts: seq<string>)
    ensures texts == EventTexts(events, year, source, fmt)
  {
    texts := [];
    var k := 0;
    while k < |events|
      invariant 0 <= k <= |events|
      invariant texts == EventTexts(events[..k], year, source, fmt)
    {
      assert events[..k + 1][..k] == events[..k];
      if events[k].year == year && events[k].source == source {
        texts := texts + [EventText(events[k], fmt)];
      }
      k := k + 1;
    }
    assert events[..k] == events;
  }

  /** `getLifeEventDescription` as the program computes it, pushing each label in turn. */
  method DescribeYear(year: int, info: BasicInfo, events: seq<LifeEvent>, source: EventSource, fmt: real -> string)
    returns (s: string)
    ensures s == LifeEventDescription(year, info, events, source, fmt)
  {
    var parts: seq<string> := [];
    if source == PersonalSource {
      if info.maritalStatus == Planning && info.spouseInfo.Some? && info.spouseInfo.value.marriageAge != 0 {
        var marriageYear := info.startYear + (info.spouseInfo.value.marriageAge - info.currentAge);
        if year == marriageYear {
          parts := parts + [MarriageLabel];
        }
      }
      var children := PushBirthLabels(ChildBirthYears(info), 1, year);
      var planned := PushBirthLabels(PlannedBirthYears(info), |info.children| + 1, year);
      assert parts == if MarriesIn(info, year) then [MarriageLabel] else [];
      parts := parts + children + planned;
      assert parts == FamilyLabels(info, year);
    }
    var texts := PushEventTexts(events, year, source, fmt);
    parts := parts + texts;
    assert parts == DescriptionParts(year, info, events, source, fmt);
    s := Join(parts, EventSeparator);
  }

  // ---- what a description says ----

  /** Different numbers give different birth labels. */
  lemma BirthLabelInjective(a: nat, b: nat)
    requires BirthLabel(a) == BirthLabel(b)
    ensures a == b
  {
    var s := BirthLabel(a);
    assert s[1..|s| - 3] == IntText(a);
    assert BirthLabel(b)[1..|s| - 3] == IntText(b);
    NumberOfIntText(a);
    NumberOfIntText(b);
  }

  /** The label numbered n is among a year's birth labels exactly when the child at that position is born that year. */
  lemma {:induction false} BirthLabelsMembers(birthYears: seq<int>, first: nat, year: int, n: nat)
    ensures BirthLabel(n) in BirthLabels(birthYears, first, year)
            <==> first <= n < first + |birthYears| && birthYears[n - first] == year
    decreases |birthYears|
  {
    if birthYears != [] {
      var init := birthYears[..|birthYears| - 1];
      var last := first + |birthYears| - 1;
      var tail := if birthYears[|birthYears| - 1] == year then [BirthLabel(last)] else [];
      assert BirthLabels(birthYears, first, year) == BirthLabels(init, first, year) + tail;
      BirthLabelsMembers(init, first, year, n);
      if n != last {
        if BirthLabel(n) in tail {
          BirthLabelInjective(n, last);
        }
        if first <= n < first + |init| {
          assert birthYears[n - first] == init[n - first];
        }
      }
    }
  }

  /** A year without a birth in `birthYears` has no birth labels. */
  lemma {:induction false} BirthLabelsEmpty(birthYears: seq<int>, first: nat, year: int)
    ensures BirthLabels(birthYears, first, year) == [] <==> forall i :: 0 <= i < |birthYears| ==> birthYears[i] != year
    decreases |birthYears|
  {
    if birthYears != [] {
      var init := birthYears[..|birthYears| - 1];
      BirthLabelsEmpty(init, first, year);
      assert forall i :: 0 <= i < |init| ==> init[i] == birthYears[i];
    }
  }

  /** Every event text ends with `）`. */
  lemma {:induction false} EventTextsEnd(events: seq<LifeEvent>, year: int, source: EventSource, fmt: real -> string)
    ensures forall t :: t in EventTexts(events, year, source, fmt) ==> |t| > 0 && t[|t| - 1] == '）'
    decreases |events|
  {
    if events != [] {
      EventTextsEnd(events[..|events| - 1], year, source, fmt);
    }
  }

  /** A year has event texts exactly when one of its events has that year and source. */
  lemma {:induction false} EventTextsEmpty(events: seq<LifeEvent>, year: int, source: EventSource, fmt: real -> string)
    ensures EventTexts(events, year, source, fmt) == [] <==> forall i :: 0 <= i < |events| ==> !EventIn(events[i], year, source)
    decreases |events|
  {
    if events != [] {
      var init := events[..|events| - 1];
      EventTextsEmpty(init, year, source, fmt);
      assert forall i :: 0 <= i < |init| ==> init[i] == events[i];
    }
  }

  /** The texts of two lists of events are the texts of each, in order. */
  lemma {:induction false} EventTextsAppend(xs: seq<LifeEvent>, ys: seq<LifeEvent>, year: int, source: EventSource, fmt: real -> string)
    ensures EventTexts(xs + ys, year, source, fmt) == EventTexts(xs, year, source, fmt) + EventTexts(ys, year, source, fmt)
    decreases |ys|
  {
    if ys == [] {
      assert xs + ys == xs;
    } else {
      var init := ys[..|ys| - 1];
      assert (xs + ys)[..|xs + ys| - 1] == xs + init;
      EventTextsAppend(xs, init, year, source, fmt);
    }
  }

  /** No part of a description that comes from the events is a marriage or birth label. */
  lemma EventTextsAreNotLabels(events: seq<LifeEvent>, year: int, source: EventSource, fmt: real -> string, n: nat)
    ensures MarriageLabel !in EventTexts(events, year, source, fmt)
    ensures BirthLabel(n) !in EventTexts(events, year, source, fmt)
  {
    EventTextsEnd(events, year, source, fmt);
    var b := BirthLabel(n);
    assert b[|b| - 1] == '生';
    assert MarriageLabel[|MarriageLabel| - 1] == '婚';
  }

  /** Marriage and birth labels appear only in the personal description. */
  lemma OnlyPersonalHasFamilyLabels(year: int, info: BasicInfo, events: seq<LifeEvent>, source: EventSource, fmt: real -> string, n: nat)
    requires source != PersonalSource
    ensures MarriageLabel !in DescriptionParts(year, info, events, source, fmt)
    ensures BirthLabel(n) !in DescriptionParts(year, info, events, source, fmt)
  {
    EventTextsAreNotLabels(events, year, source, fmt, n);
    assert DescriptionParts(year, info, events, source, fmt) == EventTexts(events, year, source, fmt);
  }

  /** The n-th child (counting from 1) is an existing child whose computed age is 0 in `year`. */
  predicate ChildBornIn(info: BasicInfo, year: int, n: nat)
  {
    1 <= n <= |info.children| && CalculateAge(info.startYear, info.children[n - 1].currentAge, year) == 0
  }

  /** The n-th child is a planned child, counted after the existing ones, born in `year`. */
  predicate PlannedChildBornIn(info: BasicInfo, year: int, n: nat)
  {
    |info.children| < n <= |info.children| + |info.plannedChildren|
    && year == info.startYear + info.plannedChildren[n - |info.children| - 1].yearsFromNow
  }

  /** Every birth label ends with `生`. */
  lemma {:induction false} BirthLabelsEnd(birthYears: seq<int>, first: nat, year: int)
    ensures forall t :: t in BirthLabels(birthYears, first, year) ==> |t| > 0 && t[|t| - 1] == '生'
    decreases |birthYears|
  {
    if birthYears != [] {
      BirthLabelsEnd(birthYears[..|birthYears| - 1], first, year);
    }
  }

  /** The existing children's labels name child n exactly when that child's age is 0 in the year. */
  lemma ChildLabelMember(info: BasicInfo, year: int, n: nat)
    ensures BirthLabel(n) in BirthLabels(ChildBirthYears(info), 1, year) <==> ChildBornIn(info, year, n)
  {
    BirthLabelsMembers(ChildBirthYears(info), 1, year, n);
    if 1 <= n <= |info.children| {
      var age := CalculateAge(info.startYear, info.children[n - 1].currentAge, year);
      assert ChildBirthYears(info)[n - 1] == info.startYear - info.children[n - 1].currentAge;
    }
  }

  /** The planned children's labels, numbered after the existing children, name child n exactly when it is born in the year. */
  lemma PlannedLabelMember(info: BasicInfo, year: int, n: nat)
    ensures BirthLabel(n) in BirthLabels(PlannedBirthYears(info), |info.children| + 1, year) <==> PlannedChildBornIn(info, year, n)
  {
    var k := |info.children|;
    BirthLabelsMembers(PlannedBirthYears(info), k + 1, year, n);
    if k < n <= k + |info.plannedChildren| {
      assert PlannedBirthYears(info)[n - (k + 1)] == info.startYear + info.plannedChildren[n - k - 1].yearsFromNow;
    }
  }

  /** The family labels name child n exactly when that child is born in the year. */
  lemma FamilyBirthLabel(info: BasicInfo, year: int, n: nat)
    ensures BirthLabel(n) in FamilyLabels(info, year) <==> ChildBornIn(info, year, n) || PlannedChildBornIn(info, year, n)
  {
    var b := BirthLabel(n);
    var marriage := if MarriesIn(info, year) then [MarriageLabel] else [];
    assert b !in marriage by {
      assert b[|b| - 1] == '生' && MarriageLabel[|MarriageLabel| - 1] == '婚';
    }
    ChildLabelMember(info, year, n);
    PlannedLabelMember(info, year, n);
    assert FamilyLabels(info, year)
           == marriage + BirthLabels(ChildBirthYears(info), 1, year) + BirthLabels(PlannedBirthYears(info), |info.children| + 1, year);
  }

  /**
   * In the personal description the label of child n appears exactly when
   * the n-th existing child's computed age is 0 that year, or, counting on
   * after the existing children, when that planned child is born that year.
   */
  lemma PersonalBirthLabel(year: int, info: BasicInfo, events: seq<LifeEvent>, fmt: real -> string, n: nat)
    ensures BirthLabel(n) in DescriptionParts(year, info, events, PersonalSource, fmt)
            <==> ChildBornIn(info, year, n) || PlannedChildBornIn(info, year, n)
  {
    EventTextsAreNotLabels(events, year, PersonalSource, fmt, n);
    FamilyBirthLabel(info, year, n);
  }

  /** In the personal description the marriage label appears exactly in the planned marriage year. */
  lemma PersonalMarriageLabel(year: int, info: BasicInfo, events: seq<LifeEvent>, fmt: real -> string)
    ensures MarriageLabel in DescriptionParts(year, info, events, PersonalSource, fmt) <==> MarriesIn(info, year)
  {
    EventTextsAreNotLabels(events, year, PersonalSource, fmt, 0);
    BirthLabelsEnd(ChildBirthYears(info), 1, year);
    BirthLabelsEnd(PlannedBirthYears(info), |info.children| + 1, year);
    assert MarriageLabel[|MarriageLabel| - 1] == '婚';
  }

  /** Joining non-empty parts gives the empty text exactly when there are no parts. */
  lemma JoinEmpty(xs: seq<string>, sep: string)
    requires forall i :: 0 <= i < |xs| ==> xs[i] != ""
    ensures Join(xs, sep) == "" <==> xs == []
  {
    if |xs| > 1 {
      assert |Join(xs, sep)| >= |xs[0]|;
    }
  }

  /** A year has no labels for existing children exactly when none of them is born in it. */
  lemma ChildLabelsEmpty(info: BasicInfo, year: int)
    ensures BirthLabels(ChildBirthYears(info), 1, year) == [] <==> forall n: nat :: !ChildBornIn(info, year, n)
  {
    BirthLabelsEmpty(ChildBirthYears(info), 1, year);
    if exists n: nat :: ChildBornIn(info, year, n) {
      var n: nat :| ChildBornIn(info, year, n);
      assert ChildBirthYears(info)[n - 1] == year;
    }
    forall i | 0 <= i < |info.children| && ChildBirthYears(info)[i] == year
      ensures ChildBornIn(info, year, i + 1)
    {
    }
  }

  /** A year has no labels for planned children exactly when none of them is born in it. */
  lemma PlannedLabelsEmpty(info: BasicInfo, year: int)
    ensures BirthLabels(PlannedBirthYears(info), |info.children| + 1, year) == [] <==> forall n: nat :: !PlannedChildBornIn(info, year, n)
  {
    BirthLabelsEmpty(PlannedBirthYears(info), |info.children| + 1, year);
    if exists n: nat :: PlannedChildBornIn(info, year, n) {
      var n: nat :| PlannedChildBornIn(info, year, n);
      assert PlannedBirthYears(info)[n - |info.children| - 1] == year;
    }
    forall i | 0 <= i < |info.plannedChildren| && PlannedBirthYears(info)[i] == year
      ensures PlannedChildBornIn(info, year, |info.children| + i + 1)
    {
    }
  }

  /** A year has no family labels exactly when it has no planned marriage and no birth. */
  lemma FamilyLabelsEmpty(info: BasicInfo, year: int)
    ensures FamilyLabels(info, year) == []
            <==> !MarriesIn(info, year)
                 && (forall n: nat :: !ChildBornIn(info, year, n))
                 && (forall n: nat :: !PlannedChildBornIn(info, year, n))
  {
    ChildLabelsEmpty(info, year);
    PlannedLabelsEmpty(info, year);
  }

  /** A part of a description is the marriage label, a birth label or an event text. */
  lemma PartOrigin(year: int, info: BasicInfo, events: seq<LifeEvent>, source: EventSource, fmt: real -> string, t: string)
    requires t in DescriptionParts(year, info, events, source, fmt)
    ensures || t == MarriageLabel
            || t in BirthLabels(ChildBirthYears(info), 1, year)
            || t in BirthLabels(PlannedBirthYears(info), |info.children| + 1, year)
            || t in EventTexts(events, year, source, fmt)
  {
  }

  /** No part of a description is empty. */
  lemma PartsNonEmpty(year: int, info: BasicInfo, events: seq<LifeEvent>, source: EventSource, fmt: real -> string)
    ensures forall i :: 0 <= i < |DescriptionParts(year, info, events, source, fmt)| ==> DescriptionParts(year, info, events, source, fmt)[i] != ""
  {
    var parts := DescriptionParts(year, info, events, source, fmt);
    EventTextsEnd(events, year, source, fmt);
    BirthLabelsEnd(ChildBirthYears(info), 1, year);
    BirthLabelsEnd(PlannedBirthYears(info), |info.children| + 1, year);
    forall i | 0 <= i < |parts|
      ensures parts[i] != ""
    {
      PartOrigin(year, info, events, source, fmt, parts[i]);
    }
  }

  /**
   * A year's description is empty exactly when nothing happens in it: no
   * event of the year and source and, for the personal source, no planned
   * marriage and no birth.
   */
  lemma DescriptionEmpty(year: int, info: BasicInfo, events: seq<LifeEvent>, source: EventSource, fmt: real -> string)
    ensures LifeEventDescription(year, info, events, source, fmt) == ""
            <==> (forall i :: 0 <= i < |events| ==> !EventIn(events[i], year, source))
                 && (source == PersonalSource ==>
                       !MarriesIn(info, year)
                       && (forall n: nat :: !ChildBornIn(info, year, n))
                       && (forall n: nat :: !PlannedChildBornIn(info, year, n)))
  {
    PartsNonEmpty(year, info, events, source, fmt);
    JoinEmpty(DescriptionParts(year, info, events, source, fmt), EventSeparator);
    EventTextsEmpty(events, year, source, fmt);
    FamilyLabelsEmpty(info, year);
  }

  // ---------------------------------------------------------------------------
  // Blur handlers
  // ---------------------------------------------------------------------------

  /** The income blur recomputes take-home pay only on the personal book, and only when the first line with the id is a take-home target. */
  predicate AmountBlurApplies(items: seq<IncomeItem>, book: Book, id: string, info: BasicInfo)
  {
    book == Personal
    && match FirstWhere(items, IncomeForm.HasId(id))
         case None => false
         case Some(i) => IncomeForm.IsNetIncomeTarget(items[i].name, info)
  }

  /**
   * `handleAmountBlur` of the cash-flow table: the income form's blur on the
   * store's income tables, followed by a rebuild; outside its case nothing
   * changes, not even the cash flow.
   */
  method AmountBlur(sim: Store.Simulator, book: Book, id: string, year: int, value: real)
    requires PensionCalculations.Valid(sim.pension)
    modifies sim`incomeData, sim`cashFlow
    ensures AmountBlurApplies(old(sim.incomeData).Of(book), book, id, sim.basicInfo) ==>
              sim.SyncedFrom(old(sim.incomeData).With(book, IncomeForm.IncomeBlurred(old(sim.incomeData).Of(book), book, id, year, value, sim.basicInfo)))
    ensures !AmountBlurApplies(old(sim.incomeData).Of(book), book, id, sim.basicInfo) ==>
              sim.incomeData == old(sim.incomeData) && sim.cashFlow == old(sim.cashFlow)
  {
    var items := sim.incomeData.Of(book);
    var found := FirstWhere(items, IncomeForm.HasId(id));
    if book == Personal && found.Some? && IncomeForm.IsNetIncomeTarget(items[found.value].name, sim.basicInfo) {
      assert AmountBlurApplies(items, book, id, sim.basicInfo);
      sim.incomeData := sim.incomeData.With(book, IncomeForm.IncomeBlurred(items, book, id, year, value, sim.basicInfo));
      sim.SyncCashFlow();
    } else {
      assert !AmountBlurApplies(items, book, id, sim.basicInfo);
    }
  }

  /**
   * `handleExpenseBlur` of the cash-flow table: the expense form's blur on
   * the store's expense tables, followed by a rebuild; without a line of
   * that id nothing changes.
   */
  method ExpenseBlur(sim: Store.Simulator, book: Book, id: string, year: int, value: real)
    requires PensionCalculations.Valid(sim.pension)
    modifies sim`expenseData, sim`incomeData, sim`cashFlow
    ensures FirstWhere(old(sim.expenseData).Of(book), ExpenseForm.HasId(id)).None? ==>
              sim.expenseData == old(sim.expenseData) && sim.incomeData == old(sim.incomeData) && sim.cashFlow == old(sim.cashFlow)
    ensures FirstWhere(old(sim.expenseData).Of(book), ExpenseForm.HasId(id)).Some? ==>
              sim.expenseData == old(sim.expenseData).With(book, ExpenseForm.ExpenseBlurred(old(sim.expenseData).Of(book), id, year, value,
                                                                                            sim.parameters, sim.basicInfo.startYear))
              && sim.SyncedFrom(old(sim.incomeData))
  {
    var items := sim.expenseData.Of(book);
    if FirstWhere(items, ExpenseForm.HasId(id)).None? {
      return;
    }
    sim.expenseData := sim.expenseData.With(book, ExpenseForm.ExpenseBlurred(items, id, year, value, sim.parameters, sim.basicInfo.startYear));
    sim.SyncCashFlow();
  }

  // ---------------------------------------------------------------------------
  // CSV export
  // ---------------------------------------------------------------------------

  /** One amount column of the export: a line's name and its amounts. */
  datatype Column = Column(name: string, amounts: YearMap)

  /** One column per line of a table, in line order. */
  function ColumnsOf<T>(items: seq<T>, column: T -> Column): (r: seq<Column>)
    ensures |r| == |items|
    ensures forall i :: 0 <= i < |items| ==> r[i] == column(items[i])
  {
    seq(|items|, i requires 0 <= i < |items| => column(items[i]))
  }

  /** The amount columns: personal income, corporate income, personal expenses, corporate expenses. */
  function Columns(income: Sections<IncomeItem>, expenses: Sections<ExpenseItem>): seq<Column>
  {
    var incomeColumn := (l: IncomeItem) => Column(l.name, l.amounts);
    var expenseColumn := (l: ExpenseItem) => Column(l.name, l.amounts);
    ColumnsOf(income.personal, incomeColumn) + ColumnsOf(income.corporate, incomeColumn)
    + ColumnsOf(expenses.personal, expenseColumn) + ColumnsOf(expenses.corporate, expenseColumn)
  }

  /** What the export reads from the store; `fmt` writes a number as the program does. */
  datatype Export = Export(
    info: BasicInfo,
    events: seq<LifeEvent>,
    income: Sections<IncomeItem>,
    expenses: Sections<ExpenseItem>,
    cashFlow: CashFlowData,
    fmt: real -> string)

  const LeadingHeaders: seq<string> := ["年度", "年齢", "イベント（個人）", "イベント（法人）"]
  const TotalHeaders: seq<string> := ["個人収支（万円）", "個人総資産（万円）", "法人収支（万円）", "法人総資産（万円）"]

  function ColumnHeader(c: Column): string
  {
    c.name + "（万円）"
  }

  function ColumnHeaders(columns: seq<Column>): (r: seq<string>)
    ensures |r| == |columns|
    ensures forall i :: 0 <= i < |columns| ==> r[i] == ColumnHeader(columns[i])
  {
    seq(|columns|, i requires 0 <= i < |columns| => ColumnHeader(columns[i]))
  }

  function HeaderCells(x: Export): seq<string>
  {
    LeadingHeaders + ColumnHeaders(Columns(x.income, x.expenses)) + TotalHeaders
  }

  /** `cashFlow[year] || { zeros }`: the four totals of a year, each 0 for a year without a record. */
  function TotalCells(x: Export, year: int): seq<string>
  {
    if year in x.cashFlow then
      var cf := x.cashFlow[year];
      [x.fmt(cf.personalBalance), x.fmt(cf.personalTotalAssets), x.fmt(cf.corporateBalance), x.fmt(cf.corporateTotalAssets)]
    else
      [x.fmt(0.0), x.fmt(0.0), x.fmt(0.0), x.fmt(0.0)]
  }

  /** The cells of one year: year, age, the two descriptions, each line's amount (`|| 0`) and the four totals. */
  function RowCells(x: Export, year: int): seq<string>
  {
    LeadCells(x, year) + AmountCells(x, year) + TotalCells(x, year)
  }

  /** Year, age and the two descriptions. */
  function LeadCells(x: Export, year: int): seq<string>
  {
    [IntText(year), IntText(CalculateAge(x.info.startYear, x.info.currentAge, year)),
     LifeEventDescription(year, x.info, x.events, PersonalSource, x.fmt),
     LifeEventDescription(year, x.info, x.events, CorporateSource, x.fmt)]
  }

  /** Each line's amount for the year, `|| 0`. */
  function AmountCells(x: Export, year: int): seq<string>
  {
    var columns := Columns(x.income, x.expenses);
    seq(|columns|, i requires 0 <= i < |columns| => x.fmt(Get(columns[i].amounts, year)))
  }

  /** `"${cell}"`: the cell between double quotes, with nothing escaped. */
  function Quote(cell: string): string
  {
    "\"" + cell + "\""
  }

  function Quoted(cells: seq<string>): (r: seq<string>)
    ensures |r| == |cells|
    ensures forall i :: 0 <= i < |cells| ==> r[i] == Quote(cells[i])
  {
    seq(|cells|, i requires 0 <= i < |cells| => Quote(cells[i]))
  }

  function HeaderLine(x: Export): string
  {
    Join(HeaderCells(x), ",")
  }

  function RowLine(x: Export, year: int): string
  {
    Join(Quoted(RowCells(x, year)), ",")
  }

  /** The lines of `n` years from `from` on. */
  function RowLines(x: Export, from: int, n: nat): (r: seq<string>)
    ensures |r| == n
    decreases n
  {
    if n == 0 then [] else [RowLine(x, from)] + RowLines(x, from + 1, n - 1)
  }

  /** The CSV text of `handleExportCSV`: the header line, then one line per projected year. */
  function CsvText(x: Export): string
  {
    Join([HeaderLine(x)] + RowLines(x, x.info.startYear, Projection.YearCount(x.info)), "\n")
  }

  // ---- layout ----

  /** Header and rows have the same number of cells, and the column of each line holds that line's amount of the year. */
  lemma ColumnAligned(x: Export, year: int, i: nat)
    requires i < |Columns(x.income, x.expenses)|
    ensures |RowCells(x, year)| == |HeaderCells(x)| == 8 + |Columns(x.income, x.expenses)|
    ensures HeaderCells(x)[4 + i] == Columns(x.income, x.expenses)[i].name + "（万円）"
    ensures RowCells(x, year)[4 + i] == x.fmt(Get(Columns(x.income, x.expenses)[i].amounts, year))
  {
    MiddleCell(LeadCells(x, year), AmountCells(x, year), TotalCells(x, year), i);
    MiddleCell(LeadingHeaders, ColumnHeaders(Columns(x.income, x.expenses)), TotalHeaders, i);
  }

  /** Between four cells before and four after, cell `i` of the middle run is cell `4 + i` of the whole. */
  lemma MiddleCell(a: seq<string>, b: seq<string>, c: seq<string>, i: nat)
    requires |a| == 4 && |c| == 4 && i < |b|
    ensures |a + b + c| == 8 + |b| && (a + b + c)[4 + i] == b[i]
  {
  }

  /** The columns follow the tables: personal income, corporate income, personal expenses, corporate expenses, in line order. */
  lemma ColumnOrder(income: Sections<IncomeItem>, expenses: Sections<ExpenseItem>)
    ensures var columns := Columns(income, expenses);
            var a := |income.personal|;
            var b := a + |income.corporate|;
            var c := b + |expenses.personal|;
            |columns| == c + |expenses.corporate|
            && (forall i :: 0 <= i < a ==> columns[i] == Column(income.personal[i].name, income.personal[i].amounts))
            && (forall i :: 0 <= i < |income.corporate| ==> columns[a + i] == Column(income.corporate[i].name, income.corporate[i].amounts))
            && (forall i :: 0 <= i < |expenses.personal| ==> columns[b + i] == Column(expenses.personal[i].name, expenses.personal[i].amounts))
            && (forall i :: 0 <= i < |expenses.corporate| ==> columns[c + i] == Column(expenses.corporate[i].name, expenses.corporate[i].amounts))
  {
  }

  /** A year the cash flow has no record for exports 0 for each of the four totals. */
  lemma MissingYearTotals(x: Export, year: int)
    requires year !in x.cashFlow
    ensures var cells := RowCells(x, year);
            forall k :: |cells| - 4 <= k < |cells| ==> cells[k] == x.fmt(0.0)
  {
    var lead, amounts, totals := LeadCells(x, year), AmountCells(x, year), TotalCells(x, year);
    assert |lead| == 4 && totals == [x.fmt(0.0), x.fmt(0.0), x.fmt(0.0), x.fmt(0.0)];
    assert RowCells(x, year) == (lead + amounts) + totals;
  }

  // ---- line breaks ----

  function SumCounts(xs: seq<string>, c: char): nat
  {
    if xs == [] then 0 else Count(xs[0], c) + SumCounts(xs[1..], c)
  }

  function CellBreaks(cells: seq<string>): nat
  {
    SumCounts(cells, '\n')
  }

  /** The cells of every year. */
  function Rows(x: Export): int -> seq<string>
  {
    (year: int) => RowCells(x, year)
  }

  /** The number of line breaks in the cells of `n` years from `from` on. */
  function RowBreaks(rows: int -> seq<string>, from: int, n: nat): nat
    decreases n
  {
    if n == 0 then 0 else CellBreaks(rows(from)) + RowBreaks(rows, from + 1, n - 1)
  }

  lemma {:induction false} CountZero(s: string, c: char)
    ensures Count(s, c) == 0 <==> c !in s
  {
    if s != [] {
      CountZero(s[1..], c);
      assert s == [s[0]] + s[1..];
    }
  }

  /** A joined text holds the characters of its parts and one separator between each two. */
  lemma {:induction false} JoinCount(xs: seq<string>, sep: string, c: char)
    ensures Count(Join(xs, sep), c) == SumCounts(xs, c) + (if xs == [] then 0 else (|xs| - 1) * Count(sep, c))
  {
    if |xs| == 1 {
      assert SumCounts(xs[1..], c) == 0;
    } else if |xs| > 1 {
      JoinCount(xs[1..], sep, c);
      CountAppend(xs[0], sep, c);
      CountAppend(xs[0] + sep, Join(xs[1..], sep), c);
    }
  }

  /** Joined by a separator without the character, a text holds the characters of its parts only. */
  lemma PlainJoinCount(xs: seq<string>, sep: string, c: char)
    requires c !in sep
    ensures Count(Join(xs, sep), c) == SumCounts(xs, c)
  {
    JoinCount(xs, sep, c);
    CountZero(sep, c);
  }

  /** Quoting adds two double quotes and nothing else: a quote inside a cell is not doubled. */
  lemma QuoteCount(cell: string, c: char)
    ensures Count(Quote(cell), c) == Count(cell, c) + (if c == '"' then 2 else 0)
  {
    CountAppend("\"", cell, c);
    CountAppend("\"" + cell, "\"", c);
  }

  lemma {:induction false} QuotedCount(cells: seq<string>, c: char)
    requires c != '"'
    ensures SumCounts(Quoted(cells), c) == SumCounts(cells, c)
  {
    if cells != [] {
      assert Quoted(cells)[1..] == Quoted(cells[1..]);
      QuotedCount(cells[1..], c);
      QuoteCount(cells[0], c);
    }
  }

  /** A line of quoted cells has the line breaks of its cells and no others. */
  lemma QuotedLineCount(cells: seq<string>)
    ensures Count(Join(Quoted(cells), ","), '\n') == CellBreaks(cells)
  {
    PlainJoinCount(Quoted(cells), ",", '\n');
    QuotedCount(cells, '\n');
  }

  lemma {:induction false} RowLinesCount(x: Export, from: int, n: nat)
    ensures SumCounts(RowLines(x, from, n), '\n') == RowBreaks(Rows(x), from, n)
    decreases n
  {
    if n > 0 {
      var lines := RowLines(x, from, n);
      assert lines[0] == RowLine(x, from);
      assert lines[1..] == RowLines(x, from + 1, n - 1);
      RowLinesCount(x, from + 1, n - 1);
      QuotedLineCount(RowCells(x, from));
    }
  }

  /** A header line followed by rows, joined by line breaks. */
  lemma LinesCount(header: string, rows: seq<string>)
    ensures Count(Join([header] + rows, "\n"), '\n') == |rows| + Count(header, '\n') + SumCounts(rows, '\n')
  {
    var lines := [header] + rows;
    assert lines[0] == header && lines[1..] == rows;
    assert SumCounts(lines, '\n') == Count(header, '\n') + SumCounts(rows, '\n');
    JoinCount(lines, "\n", '\n');
    assert Count("\n", '\n') == 1;
    assert (|lines| - 1) * Count("\n", '\n') == |rows|;
  }

  /**
   * The text has one line break per projected year, plus one for every line
   * break inside a cell: cells are not escaped, so a break in a name, a
   * description or a number splits a record.
   */
  lemma CsvLineBreaks(x: Export)
    ensures Count(CsvText(x), '\n')
            == Projection.YearCount(x.info) + CellBreaks(HeaderCells(x)) + RowBreaks(Rows(x), x.info.startYear, Projection.YearCount(x.info))
  {
    LinesCount(HeaderLine(x), RowLines(x, x.info.startYear, Projection.YearCount(x.info)));
    PlainJoinCount(HeaderCells(x), ",", '\n');
    RowLinesCount(x, x.info.startYear, Projection.YearCount(x.info));
  }

  /** No name, event description or written number contains a line break. */
  ghost predicate WithoutBreaks(x: Export)
  {
    (forall i :: 0 <= i < |Columns(x.income, x.expenses)| ==> '\n' !in Columns(x.income, x.expenses)[i].name)
    && (forall i :: 0 <= i < |x.events| ==> '\n' !in x.events[i].description)
    && (forall v :: '\n' !in x.fmt(v))
  }

  lemma {:induction false} SumCountsZero(xs: seq<string>, c: char)
    ensures SumCounts(xs, c) == 0 <==> forall i :: 0 <= i < |xs| ==> c !in xs[i]
  {
    if xs != [] {
      SumCountsZero(xs[1..], c);
      CountZero(xs[0], c);
      assert forall i :: 1 <= i < |xs| ==> xs[i] == xs[1..][i - 1];
    }
  }

  lemma IntTextNoBreak(n: int)
    ensures '\n' !in IntText(n)
  {
    var digits := DigitsText(if n < 0 then -n else n);
    assert forall i :: 0 <= i < |digits| ==> digits[i] != '\n';
  }

  lemma {:induction false} JoinNoBreak(xs: seq<string>, sep: string)
    requires '\n' !in sep
    requires forall i :: 0 <= i < |xs| ==> '\n' !in xs[i]
    ensures '\n' !in Join(xs, sep)
  {
    if |xs| > 1 {
      JoinNoBreak(xs[1..], sep);
    }
  }

  lemma {:induction false} BirthLabelsNoBreak(birthYears: seq<int>, first: nat, year: int)
    ensures forall t :: t in BirthLabels(birthYears, first, year) ==> '\n' !in t
    decreases |birthYears|
  {
    if birthYears != [] {
      BirthLabelsNoBreak(birthYears[..|birthYears| - 1], first, year);
      IntTextNoBreak(first + |birthYears| - 1);
    }
  }

  lemma {:induction false} EventTextsNoBreak(events: seq<LifeEvent>, year: int, source: EventSource, fmt: real -> string)
    requires forall i :: 0 <= i < |events| ==> '\n' !in events[i].description
    requires forall v :: '\n' !in fmt(v)
    ensures forall t :: t in EventTexts(events, year, source, fmt) ==> '\n' !in t
    decreases |events|
  {
    if events != [] {
      var init := events[..|events| - 1];
      assert forall i :: 0 <= i < |init| ==> init[i] == events[i];
      EventTextsNoBreak(init, year, source, fmt);
    }
  }

  /** A description of breakless parts has no line break. */
  lemma DescriptionNoBreak(year: int, info: BasicInfo, events: seq<LifeEvent>, source: EventSource, fmt: real -> string)
    requires forall i :: 0 <= i < |events| ==> '\n' !in events[i].description
    requires forall v :: '\n' !in fmt(v)
    ensures '\n' !in LifeEventDescription(year, info, events, source, fmt)
  {
    var parts := DescriptionParts(year, info, events, source, fmt);
    BirthLabelsNoBreak(ChildBirthYears(info), 1, year);
    BirthLabelsNoBreak(PlannedBirthYears(info), |info.children| + 1, year);
    EventTextsNoBreak(events, year, source, fmt);
    forall i | 0 <= i < |parts|
      ensures '\n' !in parts[i]
    {
      PartOrigin(year, info, events, source, fmt, parts[i]);
    }
    JoinNoBreak(parts, EventSeparator);
  }

  lemma LeadCellsNoBreak(x: Export, year: int)
    requires forall i :: 0 <= i < |x.events| ==> '\n' !in x.events[i].description
    requires forall v :: '\n' !in x.fmt(v)
    ensures forall i :: 0 <= i < |LeadCells(x, year)| ==> '\n' !in LeadCells(x, year)[i]
  {
    var lead := LeadCells(x, year);
    forall i | 0 <= i < |lead|
      ensures '\n' !in lead[i]
    {
      if i == 0 {
        IntTextNoBreak(year);
      } else if i == 1 {
        IntTextNoBreak(CalculateAge(x.info.startYear, x.info.currentAge, year));
      } else if i == 2 {
        DescriptionNoBreak(year, x.info, x.events, PersonalSource, x.fmt);
      } else {
        DescriptionNoBreak(year, x.info, x.events, CorporateSource, x.fmt);
      }
    }
  }

  lemma RowCellsNoBreak(x: Export, year: int)
    requires WithoutBreaks(x)
    ensures CellBreaks(RowCells(x, year)) == 0
  {
    LeadCellsNoBreak(x, year);
    AmountCellsNoBreak(x, year);
    TotalCellsNoBreak(x, year);
    JoinedCellsNoBreak(LeadCells(x, year), AmountCells(x, year), TotalCells(x, year));
  }

  lemma AmountCellsNoBreak(x: Export, year: int)
    requires forall v :: '\n' !in x.fmt(v)
    ensures forall i :: 0 <= i < |AmountCells(x, year)| ==> '\n' !in AmountCells(x, year)[i]
  {
  }

  lemma TotalCellsNoBreak(x: Export, year: int)
    requires forall v :: '\n' !in x.fmt(v)
    ensures forall i :: 0 <= i < |TotalCells(x, year)| ==> '\n' !in TotalCells(x, year)[i]
  {
  }

  /** Three runs of cells without line breaks have none together. */
  lemma JoinedCellsNoBreak(a: seq<string>, b: seq<string>, c: seq<string>)
    requires forall i :: 0 <= i < |a| ==> '\n' !in a[i]
    requires forall i :: 0 <= i < |b| ==> '\n' !in b[i]
    requires forall i :: 0 <= i < |c| ==> '\n' !in c[i]
    ensures CellBreaks(a + b + c) == 0
  {
    SumCountsZero(a + b + c, '\n');
  }

  lemma {:induction false} RowBreaksZero(rows: int -> seq<string>, from: int, n: nat)
    requires forall y :: CellBreaks(rows(y)) == 0
    ensures RowBreaks(rows, from, n) == 0
    decreases n
  {
    if n > 0 {
      RowBreaksZero(rows, from + 1, n - 1);
    }
  }

  lemma HeaderNoBreak(x: Export)
    requires WithoutBreaks(x)
    ensures CellBreaks(HeaderCells(x)) == 0
  {
    assert forall i :: 0 <= i < |LeadingHeaders| ==> '\n' !in LeadingHeaders[i];
    assert forall i :: 0 <= i < |TotalHeaders| ==> '\n' !in TotalHeaders[i];
    SumCountsZero(HeaderCells(x), '\n');
  }

  /** Without line breaks in names, descriptions and numbers the text is the header and exactly one line per year. */
  lemma CsvLines(x: Export)
    requires WithoutBreaks(x)
    ensures Count(CsvText(x), '\n') == Projection.YearCount(x.info)
  {
    CsvLineBreaks(x);
    HeaderNoBreak(x);
    forall y
      ensures CellBreaks(Rows(x)(y)) == 0
    {
      RowCellsNoBreak(x, y);
    }
    RowBreaksZero(Rows(x), x.info.startYear, Projection.YearCount(x.info));
  }

  // ---------------------------------------------------------------------------
  // Rows by category
  // ---------------------------------------------------------------------------

  /** `item.category || 'other'`. */
  function CategoryOr(category: string): string
  {
    if category == "" then "other" else category
  }

  /**
   * `getItemsByCategory` on one table (`category` reads a line's category):
   * the lines whose category, read as 'other' when missing, is `id`, in order.
   */
  function ItemsByCategory<T(!new)>(items: seq<T>, category: T -> string, id: string): (r: seq<T>)
    ensures |r| <= |items|
    ensures forall e :: e in r <==> e in items && CategoryOr(category(e)) == id
    decreases |items|
  {
    if items == [] then []
    else (if CategoryOr(category(items[0])) == id then [items[0]] else []) + ItemsByCategory(items[1..], category, id)
  }

  /** One line is kept exactly when its category matches. */
  lemma ItemsByCategoryOne<T(!new)>(x: T, category: T -> string, id: string)
    ensures ItemsByCategory([x], category, id) == if CategoryOr(category(x)) == id then [x] else []
  {
    assert [x][1..] == [];
  }

  /**
   * Filtering two tables one after the other is filtering their
   * concatenation: with the one-line case this fixes the order and the
   * repeats of the lines kept, as `filter` keeps them.
   */
  lemma {:induction false} ItemsByCategoryAppend<T(!new)>(a: seq<T>, b: seq<T>, category: T -> string, id: string)
    ensures ItemsByCategory(a + b, category, id) == ItemsByCategory(a, category, id) + ItemsByCategory(b, category, id)
    decreases |a|
  {
    if a == [] {
      assert a + b == b;
    } else {
      assert (a + b)[1..] == a[1..] + b;
      ItemsByCategoryAppend(a[1..], b, category, id);
    }
  }

  /** Every kept line is kept as many times as it occurs in the table. */
  lemma {:induction false} ItemsByCategoryCounts<T(!new)>(items: seq<T>, category: T -> string, id: string, e: T)
    ensures multiset(ItemsByCategory(items, category, id))[e] == if CategoryOr(category(e)) == id then multiset(items)[e] else 0
    decreases |items|
  {
    if items != [] {
      ItemsByCategoryCounts(items[1..], category, id, e);
      assert items == [items[0]] + items[1..];
    }
  }
}
