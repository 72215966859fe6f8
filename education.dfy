/**
 * Yearly education cost of the user's children, in 万円.
 *
 * Each child is in one stage a year by age (nursery 0-2, preschool 3-5,
 * elementary 6-11, junior high 12-14, high school 15-17, university 18-21)
 * and costs the amount of the school type chosen for that stage, escalated
 * by the education cost increase rate from the start year. A planned child
 * is born `yearsFromNow` years after the start year.
 */
module Education {
  import opened Money
  import opened SimulatorTypes

  datatype Stage = Nursery | Preschool | Elementary | JuniorHigh | HighSchool | University

  /** The stage a child of `age` is in, if any. */
  function StageAt(age: int): (r: Option<Stage>)
    ensures r.None? <==> age < 0 || age > 21
    ensures r == Some(University) <==> 18 <= age <= 21
    ensures r == Some(Nursery) <==> 0 <= age <= 2
  {
    if 0 <= age <= 2 then Some(Nursery)
    else if 3 <= age <= 5 then Some(Preschool)
    else if 6 <= age <= 11 then Some(Elementary)
    else if 12 <= age <= 14 then Some(JuniorHigh)
    else if 15 <= age <= 17 then Some(HighSchool)
    else if 18 <= age <= 21 then Some(University)
    else None
  }

  const Public: string := "公立"
  const Private: string := "私立"
  const NationalHumanities: string := "国立大学（文系）"
  const NationalSciences: string := "国立大学（理系）"
  const PrivateHumanities: string := "私立大学（文系）"
  const PrivateSciences: string := "私立大学（理系）"

  /** The yearly cost table; a school type the table does not list costs 0. */
  function SchoolCost(stage: Stage, choice: string): real
  {
    match stage
      case Nursery => if choice == Public then 29.9 else if choice == Private then 35.3 else 0.0
      case Preschool => if choice == Public then 18.4 else if choice == Private then 34.7 else 0.0
      case Elementary => if choice == Public then 33.6 else if choice == Private then 182.8 else 0.0
      case JuniorHigh => if choice == Public then 54.2 else if choice == Private then 156.0 else 0.0
      case HighSchool => if choice == Public then 59.7 else if choice == Private then 103.0 else 0.0
      case University =>
        if choice == NationalHumanities || choice == NationalSciences then 60.6
        else if choice == PrivateHumanities then 102.6
        else if choice == PrivateSciences then 135.4
        else 0.0
  }

  /** `getUniversityCost`: a separate university price list, which agrees with the table. */
  function UniversityCost(universityType: string): (r: real)
    ensures r == SchoolCost(University, universityType)
  {
    if universityType == NationalHumanities then 60.6
    else if universityType == NationalSciences then 60.6
    else if universityType == PrivateHumanities then 102.6
    else if universityType == PrivateSciences then 135.4
    else 0.0
  }

  function ChoiceFor(plan: EducationPlan, stage: Stage): string
  {
    match stage
      case Nursery => plan.nursery
      case Preschool => plan.preschool
      case Elementary => plan.elementary
      case JuniorHigh => plan.juniorHigh
      case HighSchool => plan.highSchool
      case University => plan.university
  }

  /** The unescalated cost of a child of `age` following `plan`. */
  function ChildCost(plan: EducationPlan, age: int): (r: real)
    ensures r >= 0.0
    ensures (age < 0 || age > 21) ==> r == 0.0
    ensures 0 <= age <= 21 ==> r == SchoolCost(StageAt(age).value, ChoiceFor(plan, StageAt(age).value))
  {
    match StageAt(age)
      case None => 0.0
      case Some(stage) => SchoolCost(stage, ChoiceFor(plan, stage))
  }

  /** A cost escalated by `factor`. */
  function Escalate(cost: real, factor: real): real
  {
    cost * factor
  }

  /** The escalated cost of the existing children, `yearsSinceStart` years after the start year. */
  function ExistingChildrenCost(children: seq<Child>, yearsSinceStart: int, factor: real): real
  {
    if children == [] then 0.0
    else
      var c := children[|children| - 1];
      ExistingChildrenCost(children[..|children| - 1], yearsSinceStart, factor)
        + Escalate(ChildCost(c.educationPlan, c.currentAge + yearsSinceStart), factor)
  }

  /** A planned child costs nothing before its birth year, then by its age since birth. */
  function PlannedChildCost(child: PlannedChild, yearsSinceStart: int): (r: real)
    ensures yearsSinceStart < child.yearsFromNow ==> r == 0.0
    ensures r >= 0.0
  {
    if yearsSinceStart >= child.yearsFromNow then ChildCost(child.educationPlan, yearsSinceStart - child.yearsFromNow)
    else 0.0
  }

  function PlannedChildrenCost(planned: seq<PlannedChild>, yearsSinceStart: int, factor: real): real
  {
    if planned == [] then 0.0
    else
      PlannedChildrenCost(planned[..|planned| - 1], yearsSinceStart, factor)
        + Escalate(PlannedChildCost(planned[|planned| - 1], yearsSinceStart), factor)
  }

  function EducationFactor(educationCostIncreaseRate: real, yearsSinceStart: int): real
  {
    Factor(1.0 + educationCostIncreaseRate / 100.0, yearsSinceStart)
  }

  /** `calculateEducationExpense`: the year's total, rounded to 0.1万円. */
  function EducationExpense(children: seq<Child>, planned: seq<PlannedChild>, year: int, startYear: int,
                            educationCostIncreaseRate: real): (r: real)
    ensures IsTenth(r)
  {
    var yearsSinceStart := year - startYear;
    var factor := EducationFactor(educationCostIncreaseRate, yearsSinceStart);
    Round1(ExistingChildrenCost(children, yearsSinceStart, factor) + PlannedChildrenCost(planned, yearsSinceStart, factor))
  }

  /** With a non-negative escalation factor, existing children never cost less than nothing. */
  lemma {:induction false} ExistingChildrenCostNonNegative(children: seq<Child>, yearsSinceStart: int, factor: real)
    requires factor >= 0.0
    ensures ExistingChildrenCost(children, yearsSinceStart, factor) >= 0.0
    decreases |children|
  {
    if children != [] {
      var c := children[|children| - 1];
      ExistingChildrenCostNonNegative(children[..|children| - 1], yearsSinceStart, factor);
      MulNonNegative(ChildCost(c.educationPlan, c.currentAge + yearsSinceStart), factor);
      assert Escalate(ChildCost(c.educationPlan, c.currentAge + yearsSinceStart), factor) >= 0.0;
    }
  }

  lemma {:induction false} PlannedChildrenCostNonNegative(planned: seq<PlannedChild>, yearsSinceStart: int, factor: real)
    requires factor >= 0.0
    ensures PlannedChildrenCost(planned, yearsSinceStart, factor) >= 0.0
    decreases |planned|
  {
    if planned != [] {
      PlannedChildrenCostNonNegative(planned[..|planned| - 1], yearsSinceStart, factor);
      MulNonNegative(PlannedChildCost(planned[|planned| - 1], yearsSinceStart), factor);
      assert Escalate(PlannedChildCost(planned[|planned| - 1], yearsSinceStart), factor) >= 0.0;
    }
  }

  /** Existing children all outside the school ages cost nothing that year. */
  lemma {:induction false} ExistingChildrenOutOfSchool(children: seq<Child>, yearsSinceStart: int, factor: real)
    requires forall i :: 0 <= i < |children| ==> children[i].currentAge + yearsSinceStart < 0 || children[i].currentAge + yearsSinceStart > 21
    ensures ExistingChildrenCost(children, yearsSinceStart, factor) == 0.0
    decreases |children|
  {
    if children != [] {
      ExistingChildrenOutOfSchool(children[..|children| - 1], yearsSinceStart, factor);
    }
  }

  /** Planned children not yet born (or past school age) cost nothing that year. */
  lemma {:induction false} PlannedChildrenNotYetBorn(planned: seq<PlannedChild>, yearsSinceStart: int, factor: real)
    requires forall i :: 0 <= i < |planned| ==> yearsSinceStart < planned[i].yearsFromNow || yearsSinceStart - planned[i].yearsFromNow > 21
    ensures PlannedChildrenCost(planned, yearsSinceStart, factor) == 0.0
    decreases |planned|
  {
    if planned != [] {
      PlannedChildrenNotYetBorn(planned[..|planned| - 1], yearsSinceStart, factor);
    }
  }

  /** The yearly total is never negative while the escalation rate is above -100%. */
  lemma EducationExpenseNonNegative(children: seq<Child>, planned: seq<PlannedChild>, year: int, startYear: int, rate: real)
    requires rate > -100.0
    ensures EducationExpense(children, planned, year, startYear, rate) >= 0.0
  {
    var ys := year - startYear;
    var factor := EducationFactor(rate, ys);
    PowPositive(1.0 + rate / 100.0, if ys >= 0 then ys else -ys);
    assert factor > 0.0;
    ExistingChildrenCostNonNegative(children, ys, factor);
    PlannedChildrenCostNonNegative(planned, ys, factor);
    Round1NonNegative(ExistingChildrenCost(children, ys, factor) + PlannedChildrenCost(planned, ys, factor));
  }

  /** No education cost in a year when no child, existing or planned, is of school age. */
  lemma EducationExpenseOutOfSchool(children: seq<Child>, planned: seq<PlannedChild>, year: int, startYear: int, rate: real)
    requires forall i :: 0 <= i < |children| ==> children[i].currentAge + (year - startYear) < 0 || children[i].currentAge + (year - startYear) > 21
    requires forall i :: 0 <= i < |planned| ==> year - startYear < planned[i].yearsFromNow || year - startYear - planned[i].yearsFromNow > 21
    ensures EducationExpense(children, planned, year, startYear, rate) == 0.0
  {
    var ys := year - startYear;
    var factor := EducationFactor(rate, ys);
    ExistingChildrenOutOfSchool(children, ys, factor);
    PlannedChildrenNotYetBorn(planned, ys, factor);
    Round1OfTenth(0.0);
  }
}
