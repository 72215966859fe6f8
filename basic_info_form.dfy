/**
 * The profile form: the schema a profile must satisfy, the pickers it
 * offers, the switches that reset the housing and spouse parts, adding and
 * removing children, and submitting a profile to the store.
 */
module BasicInfoForm {
  import opened Money
  import opened SimulatorTypes
  import PensionCalculations
  import Store

  predicate Within(x: int, lo: int, hi: int)
  {
    lo <= x <= hi
  }

  predicate WithinReal(x: real, lo: real, hi: real)
  {
    lo <= x <= hi
  }

  // ---------------------------------------------------------------------------
  // Schema
  // ---------------------------------------------------------------------------

  const EducationTypes: seq<string> := ["公立", "私立", "行かない"]
  const UniversityTypes: seq<string> := ["国立大学（文系）", "国立大学（理系）", "私立大学（文系）", "私立大学（理系）", "行かない"]

  predicate ValidRent(r: RentInfo)
  {
    r.monthlyRent >= 0.0 && r.annualIncreaseRate >= 0.0 && r.renewalFee >= 0.0 && r.renewalInterval >= 0.0
  }

  predicate ValidOwn(o: OwnInfo)
  {
    Within(o.purchaseYear, 1900, 2150) && o.purchasePrice >= 0.0 && o.loanAmount >= 0.0 && o.interestRate >= 0.0
    && Within(o.loanTermYears, 1, 50) && WithinReal(o.maintenanceCostRate, 0.0, 100.0)
  }

  /** Either branch may be absent; a present one must satisfy its bounds. */
  predicate ValidHousing(h: HousingInfo)
  {
    (h.rent.Some? ==> ValidRent(h.rent.value)) && (h.own.Some? ==> ValidOwn(h.own.value))
  }

  /** The spouse's numbers are optional; an absent one is 0, which the bounds admit. */
  predicate ValidSpouse(s: SpouseInfo)
  {
    Within(s.age, 0, 120) && Within(s.currentAge, 0, 120) && Within(s.marriageAge, 0, 120) && s.additionalExpense >= 0.0
  }

  predicate ValidPlan(p: EducationPlan)
  {
    p.nursery in EducationTypes && p.preschool in EducationTypes && p.elementary in EducationTypes
    && p.juniorHigh in EducationTypes && p.highSchool in EducationTypes && p.university in UniversityTypes
  }

  predicate ValidChild(c: Child)
  {
    Within(c.currentAge, 0, 120) && ValidPlan(c.educationPlan)
  }

  predicate ValidPlannedChild(c: PlannedChild)
  {
    Within(c.yearsFromNow, 0, 30) && ValidPlan(c.educationPlan)
  }

  predicate ValidChildren(cs: seq<Child>)
  {
    forall i :: 0 <= i < |cs| ==> ValidChild(cs[i])
  }

  predicate ValidPlannedChildren(cs: seq<PlannedChild>)
  {
    forall i :: 0 <= i < |cs| ==> ValidPlannedChild(cs[i])
  }

  /** `basicInfoSchema`; the enumerations are the datatypes themselves. */
  predicate Valid(info: BasicInfo)
  {
    Within(info.currentAge, 0, 120) && Within(info.startYear, 1900, 2150) && Within(info.deathAge, 0, 120)
    && info.monthlyLivingExpense >= 0.0
    && ValidHousing(info.housingInfo)
    && (info.spouseInfo.Some? ==> ValidSpouse(info.spouseInfo.value))
    && ValidChildren(info.children) && ValidPlannedChildren(info.plannedChildren)
    && Within(info.workStartAge, 15, 120) && Within(info.pensionStartAge, 60, 75)
  }

  /**
   * What the schema passes on: only the keys it knows. The spouse part has
   * no pension fields in the schema, so they come out absent.
   */
  function Stripped(info: BasicInfo): (r: BasicInfo)
    ensures r.spouseInfo.Some? <==> info.spouseInfo.Some?
    ensures r.spouseInfo.Some? ==> r.spouseInfo.value.workStartAge == 0 && r.spouseInfo.value.pensionStartAge == 0
                                   && !r.spouseInfo.value.willWorkAfterPension
  {
    match info.spouseInfo
      case None => info
      case Some(s) => info.(spouseInfo := Some(s.(workStartAge := 0, pensionStartAge := 0, willWorkAfterPension := false)))
  }

  /** The schema's parse of the form values. */
  function Parse(info: BasicInfo): (r: Option<BasicInfo>)
    ensures r.Some? <==> Valid(info)
  {
    if Valid(info) then Some(Stripped(info)) else None
  }

  /** Stripping keeps the profile valid and changes nothing else, and parsing a parsed profile gives it back. */
  lemma ParseIdempotent(info: BasicInfo)
    requires Valid(info)
    ensures Valid(Stripped(info))
    ensures Stripped(info).(spouseInfo := info.spouseInfo) == info
    ensures Parse(Stripped(info)) == Some(Stripped(info))
  {
  }

  // ---------------------------------------------------------------------------
  // Pickers
  // ---------------------------------------------------------------------------

  /** `Array.from({ length: n }, (_, i) => first + i)`. */
  function Options(first: int, n: nat): (r: seq<int>)
    ensures |r| == n
    ensures forall i :: 0 <= i < n ==> r[i] == first + i
  {
    seq(n, i requires 0 <= i < n => first + i)
  }

  lemma OptionsMembers(first: int, n: nat, x: int)
    ensures x in Options(first, n) <==> first <= x < first + n
  {
    if first <= x < first + n {
      assert Options(first, n)[x - first] == x;
    }
  }

  /** The age, year and years-from-now pickers offer exactly what the schema admits. */
  lemma PickersMatchSchema(x: int)
    ensures x in Options(0, 121) <==> Within(x, 0, 120)
    ensures x in Options(1900, 251) <==> Within(x, 1900, 2150)
    ensures x in Options(0, 31) <==> Within(x, 0, 30)
  {
    OptionsMembers(0, 121, x);
    OptionsMembers(1900, 251, x);
    OptionsMembers(0, 31, x);
  }

  /** The pension-age picker: 26 ages from 60, that is 60 to 85. */
  function PensionAgeOptions(): seq<int>
  {
    Options(60, 26)
  }

  /** The pension-age picker offers 76 to 85, which the schema then rejects. */
  lemma PensionPickerOffersRejectedAges(info: BasicInfo, age: int)
    ensures age in PensionAgeOptions() <==> Within(age, 60, 85)
    ensures age in PensionAgeOptions() && age > 75 ==> !Valid(info.(pensionStartAge := age))
  {
    OptionsMembers(60, 26, age);
  }

  /** The work-start picker: `currentAge + 20` ages from 15. */
  function WorkStartOptions(currentAge: int): seq<int>
  {
    Options(15, MaxInt(currentAge + 20, 0))
  }

  /** The work-start picker stays inside the schema's bound exactly for users up to 86. */
  lemma WorkStartPickerWithinSchema(currentAge: int)
    ensures (forall a :: a in WorkStartOptions(currentAge) ==> Within(a, 15, 120)) <==> currentAge <= 86
  {
    var n := MaxInt(currentAge + 20, 0);
    forall a
      ensures a in WorkStartOptions(currentAge) <==> 15 <= a < 15 + n
    {
      OptionsMembers(15, n, a);
    }
    if currentAge > 86 {
      assert 15 + n - 1 in WorkStartOptions(currentAge);
    }
  }

  // ---------------------------------------------------------------------------
  // Defaults
  // ---------------------------------------------------------------------------

  const DefaultPlan: EducationPlan := EducationPlan("公立", "公立", "公立", "公立", "公立", "国立大学（文系）")
  const NewChild: Child := Child(0, DefaultPlan)
  const NewPlannedChild: PlannedChild := PlannedChild(0, DefaultPlan)

  /** The housing part the type switch installs: only the chosen branch, with its defaults. */
  function HousingFor(kind: HousingType, startYear: int, currentYear: int): (r: HousingInfo)
    ensures r.kind == kind
    ensures kind == Rent ==> r.own.None? && r.rent == Some(RentInfo(0.0, 0.0, 0.0, 2.0))
    ensures kind == Own ==> r.rent.None? && r.own.Some?
  {
    match kind
      case Rent => HousingInfo(Rent, Some(RentInfo(0.0, 0.0, 0.0, 2.0)), None)
      case Own => HousingInfo(Own, None, Some(OwnInfo(OrDefault(startYear, currentYear), 0.0, 0.0, 0.0, 35, 1.0)))
  }

  /**
   * The defaults satisfy the schema's housing bounds, the purchase year only
   * when the start year (or, without one, the current year) is in range.
   */
  lemma HousingDefaultsValid(kind: HousingType, startYear: int, currentYear: int)
    ensures ValidHousing(HousingFor(kind, startYear, currentYear))
            <==> kind == Rent || Within(OrDefault(startYear, currentYear), 1900, 2150)
  {
  }

  /** New children start with the default plan, which the schema accepts. */
  lemma NewChildrenValid()
    ensures ValidChild(NewChild) && ValidPlannedChild(NewPlannedChild)
  {
    assert EducationTypes[0] == "公立";
    assert UniversityTypes[0] == "国立大学（文系）";
  }

  // ---------------------------------------------------------------------------
  // The form
  // ---------------------------------------------------------------------------

  /** The state of the form: the values being edited. */
  class InfoForm {
    const currentYear: int
    var values: BasicInfo

    constructor(currentYear: int, values: BasicInfo)
      ensures this.currentYear == currentYear && this.values == values
    {
      this.currentYear := currentYear;
      this.values := values;
    }

    /** `handleMaritalStatusChange`: the new status, and the spouse part cleared. */
    method ChangeMaritalStatus(status: MaritalStatus)
      modifies this`values
      ensures values == old(values).(maritalStatus := status, spouseInfo := None)
    {
      values := values.(maritalStatus := status);
      values := values.(spouseInfo := None);
    }

    /** `handleHousingTypeChange`. */
    method ChangeHousingType(kind: HousingType)
      modifies this`values
      ensures values == old(values).(housingInfo := HousingFor(kind, old(values).startYear, currentYear))
    {
      if kind == Rent {
        values := values.(housingInfo := HousingInfo(Rent, Some(RentInfo(0.0, 0.0, 0.0, 2.0)), None));
      } else {
        var purchaseYear := if values.startYear != 0 then values.startYear else currentYear;
        values := values.(housingInfo := HousingInfo(Own, None, Some(OwnInfo(purchaseYear, 0.0, 0.0, 0.0, 35, 1.0))));
      }
    }

    /** `addChild`: a child aged 0 with the default plan goes to the end. */
    method AddChild()
      modifies this`values
      ensures values == old(values).(children := old(values).children + [NewChild])
    {
      values := values.(children := values.children + [NewChild]);
    }

    /** `removeChild`: the child at `index` is dropped, the rest keep their order. */
    method RemoveChild(index: int)
      modifies this`values
      ensures values == old(values).(children := RemoveAt(old(values).children, index))
    {
      values := values.(children := RemoveAt(values.children, index));
    }

    /** `addPlannedChild`: a planned child due now with the default plan goes to the end. */
    method AddPlannedChild()
      modifies this`values
      ensures values == old(values).(plannedChildren := old(values).plannedChildren + [NewPlannedChild])
    {
      values := values.(plannedChildren := values.plannedChildren + [NewPlannedChild]);
    }

    /** `removePlannedChild`. */
    method RemovePlannedChild(index: int)
      modifies this`values
      ensures values == old(values).(plannedChildren := RemoveAt(old(values).plannedChildren, index))
    {
      values := values.(plannedChildren := RemoveAt(values.plannedChildren, index));
    }

    /** `handleSubmit(onSubmit)`: a profile the schema accepts is stored, as parsed; otherwise nothing changes. */
    method Submit(sim: Store.Simulator)
      requires PensionCalculations.Valid(sim.pension)
      modifies sim`basicInfo, sim`incomeData, sim`expenseData, sim`assetData, sim`liabilityData, sim`cashFlow
      ensures Parse(values).Some? ==> sim.basicInfo == Stripped(values)
      ensures Parse(values).None? ==> sim.basicInfo == old(sim.basicInfo) && sim.incomeData == old(sim.incomeData)
                                      && sim.expenseData == old(sim.expenseData) && sim.cashFlow == old(sim.cashFlow)
    {
      var parsed := Parse(values);
      if parsed.Some? {
        sim.SetBasicInfo(parsed.value);
      }
    }
  }

  lemma ChildListEdits(cs: seq<Child>, index: int)
    requires ValidChildren(cs)
    ensures ValidChildren(cs + [NewChild]) && ValidChildren(RemoveAt(cs, index))
  {
    NewChildrenValid();
    var added := cs + [NewChild];
    assert forall i :: 0 <= i < |added| ==> added[i] == NewChild || added[i] == cs[i];
    var removed := RemoveAt(cs, index);
    assert forall i :: 0 <= i < |removed| ==> removed[i] == cs[i] || removed[i] == cs[i + 1];
  }

  lemma PlannedChildListEdits(cs: seq<PlannedChild>, index: int)
    requires ValidPlannedChildren(cs)
    ensures ValidPlannedChildren(cs + [NewPlannedChild]) && ValidPlannedChildren(RemoveAt(cs, index))
  {
    NewChildrenValid();
    var added := cs + [NewPlannedChild];
    assert forall i :: 0 <= i < |added| ==> added[i] == NewPlannedChild || added[i] == cs[i];
    var removed := RemoveAt(cs, index);
    assert forall i :: 0 <= i < |removed| ==> removed[i] == cs[i] || removed[i] == cs[i + 1];
  }

  /** Adding a child keeps a valid profile valid; removing any child does too. */
  lemma ChildEditsKeepValid(info: BasicInfo, index: int)
    requires Valid(info)
    ensures Valid(info.(children := info.children + [NewChild]))
    ensures Valid(info.(plannedChildren := info.plannedChildren + [NewPlannedChild]))
    ensures Valid(info.(children := RemoveAt(info.children, index)))
    ensures Valid(info.(plannedChildren := RemoveAt(info.plannedChildren, index)))
  {
    ChildListEdits(info.children, index);
    PlannedChildListEdits(info.plannedChildren, index);
  }
}
