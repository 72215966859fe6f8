# Life-plan simulator core in Dafny

This project models the calculating core of a browser-based Japanese
life-planning simulator. The user enters their basic data and their yearly
income, expense, asset and liability lines. From these the simulator projects
a cash-flow table from the start year to the year of the assumed death age.
Money is in 万円 (10,000 yen) unless a name says yen.

The model covers four parts:

- **Take-home pay and housing** (`Calculations`):
  - salary deduction, social insurance, the seven-bracket income tax and the 10% resident tax;
  - the pass-through for the self-employed and homemakers;
  - the annuity mortgage and the rent/own housing expense;
  - the 32-grade standard-remuneration lookup;
  - the unused legacy pension estimate.
- **Public pension** (`PensionCalculations`):
  - contribution months by category;
  - the prorated basic pension;
  - the welfare pension with its two accrual rates;
  - the early/late adjustment and the earnings test;
  - the per-year entry points for the user and the spouse.
- **Projection** (`Loans`, `Education`, `Escalation`, `Projection`, `Sync`, `Store`):
  - the loan schedule and loan repayments;
  - education costs;
  - re-deriving escalated expenses from raw amounts;
  - the year-by-year fold that carries total assets and the investment pools and writes one record per year;
  - the store (`class Store.Simulator`) with its life-event list and form-data seeding.
- **Form handlers**, each as old tables → new tables:
  - `AssetsLiabilitiesForm`: loan apply/cancel, preview and amount edits;
  - `ExpenseForm`: autofill, blur, category change, adding, rate label;
  - `IncomeForm`: net-income target, autofill, blur, setters, adding;
  - `CashFlowForm`: event descriptions, CSV text, blur handlers;
  - `LifeEventForm`: schema, submit/reset, move-up;
  - `BasicInfoForm`: schema, housing and marital switches, child lists.

`Money` holds the shared arithmetic:

- `Round1(x) = ⌊10x+½⌋/10` stands for both `Math.round(x*10)/10` and `toFixed(1)`.
- `Pow` and `Factor` raise to integer exponents.
- Year maps are `map<int, real>`; `Get` defaults a missing year to 0.
- `OrDefault` reproduces JavaScript's `x || d` on numbers.

`SimulatorTypes` holds the records of the store.

Inputs the program reads from its environment are parameters:

- The pension constants file (`./pension-constants`) is not part of this model. Its values are the `PensionConstants` parameter; `Valid` and `NonNegative` state what the model assumes of them.
- The current calendar year is `currentYear` / `nowYear`.
- JavaScript's number-to-text conversion is the `fmt` parameter.

Imperative code is modelled as imperative Dafny:

- Loops in the source become methods with loop invariants, each proved equal to a specification function (`ensures r == Spec(...)`), and the properties are proved about the functions:
  - the schedule generators;
  - the salary averages;
  - the autofill fills;
  - the per-year fold;
  - the pension-line writes;
  - setParameters' re-derivation;
  - initializeFormData's seeding;
  - event descriptions.
- The store and the two forms with state are classes whose methods state their whole new state.
- The move-up handler swaps two slots of an array.

## Model

| member | source | states |
|---|---|---|
| Calculations.SalaryDeduction | src/lib/calculations.ts:2-13 | the deduction is a whole number in [55, 195] and exactly 195 above 8.5M yen |
| Calculations.SalaryDeductionMonotone | src/lib/calculations.ts:2-13 | a higher income never gets a smaller deduction (the clamped pieces meet at 162.5 and 660) |
| Calculations.BracketIndex | src/lib/calculations.ts:20-28 | the bracket chosen is the first whose ceiling is not below the income |
| Calculations.SelectedBracketIsMaximum | src/lib/calculations.ts:20-35 | the chosen bracket's formula is the largest of the seven, so the subtraction constants telescope and adjacent brackets agree at every ceiling |
| Calculations.IncomeTax | src/lib/calculations.ts:15-36 | the tax is whole and non-negative for non-negative taxable income |
| Calculations.NonNegativeTax | src/lib/calculations.ts:20-35 | the selected bracket formula is non-negative for non-negative income |
| Calculations.IncomeTaxMonotone | src/lib/calculations.ts:15-36 | income tax is nondecreasing in taxable income |
| Calculations.SocialInsuranceRate | src/lib/calculations.ts:38-41 | the rate is 0.15 exactly when income is below 850 and 0.077 exactly when it is 850 or more |
| Calculations.SocialInsurance | src/lib/calculations.ts:338-346 | a whole number: 0 for occupations without employees' pension, otherwise the floor of the gross times the rate; non-negative for non-negative income |
| Calculations.ResidentTax | src/lib/calculations.ts:352-355 | the floor of 10% of the taxable income: a whole number, non-negative for non-negative taxable income |
| Calculations.NetIncome | src/lib/calculations.ts:310-373 | net = gross − total and total = SI + income tax + resident tax; the self-employed and homemakers pass through with every deduction 0; for everyone else the employment deduction and SI are those of the gross, and income and resident tax are those of the taxable income max(0, gross − deduction − SI); SI and both taxes are whole; part-timers without pension pay no SI |
| Calculations.NetIncomeDeductionsNonNegative | src/lib/calculations.ts:338-361 | for non-negative income every deduction is non-negative, the total is whole, and net never exceeds gross |
| Calculations.NetIncomeExample | src/lib/calculations.ts:310-373 | an employee earning 500 pays SI 75, tax 16 and resident tax 26 (deduction 158, taxable 267) and nets 383 |
| Calculations.NetIncomeWithRaise | src/lib/calculations.ts:375-391 | in the start year it is the net of the floored base income; in every year it is the net of some whole gross income |
| Calculations.AnnuityRepaysLoan | src/lib/calculations.ts:44-61 | paying the annuity payment for n periods leaves nothing owed |
| Calculations.AnnuityGap | src/components/AssetsLiabilitiesForm.tsx:81-83 | for a non-negative rate, n periods of interest on the final growth factor cover that factor's growth |
| Calculations.AnnuityTotalCoversPrincipal | src/components/AssetsLiabilitiesForm.tsx:81-85 | at a positive rate the n annuity payments add up to at least the principal |
| Calculations.OwedClosedForm | src/lib/calculations.ts:44-61 | the balance owed after k payments has the annuity closed form |
| Calculations.AnnuityPayment | src/lib/calculations.ts:44-61 | whenever the growth factor is not 1, the payment solves the annuity equation for the principal |
| Calculations.MonthlyMortgage | src/lib/calculations.ts:44-61 | at zero rate the payment times the months equals the loan; otherwise it is the rounded annuity at rate/12 |
| Calculations.RentCost | src/lib/calculations.ts:83-90 | in the current year rent is twelve months' rent, rounded to 0.1; always a multiple of 0.1 |
| Calculations.RenewalCost | src/lib/calculations.ts:86-87 | no renewal fee in the current year, and none when the interval is 0 (the corrected rule) |
| Calculations.RentCostAsWritten | src/lib/calculations.ts:84-90 | the program's cost is not a finite number exactly when the renewal interval is 0; otherwise it is `RentCost` |
| Calculations.RentZeroIntervalNotFinite | src/lib/calculations.ts:86 | with an interval of 0 the current-year cost is not a number as written, and twelve months' rent in the corrected model |
| Calculations.OwnCost | src/lib/calculations.ts:91-110 | 0 before the purchase year; maintenance only from purchase year + term on; mortgage plus maintenance in between |
| Calculations.HousingExpense | src/lib/calculations.ts:63-114 | dispatches on housing type, 0 when the chosen branch is missing |
| Calculations.FindGrade | src/lib/calculations.ts:252-307 | the grade found is the first half-open grade containing the salary; none found means no grade contains it |
| Calculations.LookupRemuneration | src/lib/calculations.ts:252-308 | 0 for salary ≤ 0; otherwise the amount of the first grade containing the salary, or, with none, the lowest grade's amount below the first minimum and the highest grade's above it |
| Calculations.ContiguousGradeExists | src/lib/calculations.ts:252-307 | in a contiguous table every salary at or above the first minimum falls in some grade |
| Calculations.ContiguousGradeUnique | src/lib/calculations.ts:252-307 | in a contiguous table no salary falls in two grades |
| Calculations.ContiguousLookup | src/lib/calculations.ts:252-308 | the lookup returns the amount of the one grade containing the salary |
| Calculations.StandardGradesContiguous | src/lib/calculations.ts:256-305 | the program's 32 grades are contiguous |
| Calculations.StandardLookup | src/lib/calculations.ts:252-308 | every positive salary falls in exactly one grade and maps into [88000, 650000] |
| Calculations.GetStandardRemuneration | src/lib/calculations.ts:252-308 | 0 for salary ≤ 0, otherwise in [88000, 650000] |
| Calculations.LegacyAdjustmentRate | src/lib/calculations.ts:145-156 | the legacy rate lies in [0.5, 1.84], is 1 at 65, below 1 earlier and above 1 later |
| Calculations.LegacyStandard | src/lib/calculations.ts:181-184 | the standard remuneration of the average monthly salary is non-negative |
| Calculations.LegacyAccrualNonNegative | src/lib/calculations.ts:188-198 | the two-rate legacy accrual is non-negative for non-negative remuneration and months |
| Calculations.LegacyWelfareNonNegative | src/lib/calculations.ts:188-198 | the legacy welfare part, with the remuneration capped at 650,000 yen, is non-negative |
| Calculations.LegacyAfterWorking | src/lib/calculations.ts:217-245 | the earnings test takes away at most the welfare part, and nothing while salary + pension stays within 510,000 yen a month |
| Calculations.LegacyEmployeePension | src/lib/calculations.ts:215-245 | without work after claiming, the total is (basic + welfare) × rate; with work it is never more |
| Calculations.LegacyEmployeeWorkingBelow | src/lib/calculations.ts:215-245 | working after claiming never raises the legacy employee total |
| Calculations.LegacyPension | src/lib/calculations.ts:119-249 | the legacy estimate is the yen amount converted to 万円 and rounded to 0.1 |
| Calculations.LegacyYenWorkingBelow | src/lib/calculations.ts:165-245 | working after claiming never raises the legacy yen amount |
| Calculations.LegacyWorkingReduction | src/lib/calculations.ts:119-249 | working after claiming never raises the legacy estimate |
| PensionCalculations.StandardRemuneration | src/lib/pension-calculations.ts:13-35 | 0 for non-positive income; otherwise a table amount: the amount of the grade containing the income in a contiguous table; with no grade matching, the lowest grade's amount below the first minimum and the highest grade's amount otherwise |
| PensionCalculations.StandardBonus | src/lib/pension-calculations.ts:38-41 | the bonus is capped at the monthly maximum and is either the bonus or the cap |
| PensionCalculations.CappedWorkingMonths | src/lib/pension-calculations.ts:46-68 | months worked never exceed the full period and reach it once the career is long enough |
| PensionCalculations.MonthsUntil2003 | src/lib/pension-calculations.ts:70-81 | the months worked before April 2003 lie in [0, 240] and follow the closed form 12·d + 4 |
| PensionCalculations.PensionMonthsAsWrittenOvercounts | src/lib/pension-calculations.ts:67-84 | as written, a 90-year-old in 2025 who worked from 50 to 60 gets 220 pre-2003 months out of 120 worked |
| PensionCalculations.PensionMonthsOf | src/lib/pension-calculations.ts:44-123 | the buckets sum to the capped months, the pre/post-2003 split sums to the welfare months, and only the occupation's bucket is nonzero |
| PensionCalculations.PensionMonthsAgree | src/lib/pension-calculations.ts:67-123 | when the pre-2003 months fit in the months worked, the corrected count equals the program's |
| PensionCalculations.PositiveTotals | src/lib/pension-calculations.ts:142-148 | the loop's total and count are the sum and the number of the positive entries |
| PensionCalculations.PositiveTotalZeroIffNone | src/lib/pension-calculations.ts:142-151 | the positive total is 0 exactly when no entry is positive |
| PensionCalculations.ConstantHistoryTotal | src/lib/pension-calculations.ts:142-148 | when every positive entry is v, the positive total is v times the number of positive entries |
| PensionCalculations.AverageSalary | src/lib/pension-calculations.ts:126-173 | the method computes the specification: the positive average of the salary line (its original amounts first), the 3.6M-yen fallback for employees, 0 without a salary line |
| PensionCalculations.ConstantSalaryAverage | src/lib/pension-calculations.ts:126-173 | a salary line whose positive entries all equal v averages to round(v·10000/12) yen |
| PensionCalculations.ShareBounds | src/lib/pension-calculations.ts:176-186 | the prorated share is the full amount from the full period on, and otherwise between 0 and the full amount |
| PensionCalculations.BasicPensionAmount | src/lib/pension-calculations.ts:176-186 | whole; the floored full amount from the full period on; never above the full amount |
| PensionCalculations.ShareMonotone | src/lib/pension-calculations.ts:176-186 | the prorated share never falls as the months rise |
| PensionCalculations.BasicPensionMonotone | src/lib/pension-calculations.ts:176-186 | more months never give a smaller basic pension |
| PensionCalculations.WelfarePensionAmount | src/lib/pension-calculations.ts:189-212 | the welfare pension is the floor of the two-rate accrual |
| PensionCalculations.WelfarePensionNonNegative | src/lib/pension-calculations.ts:189-212 | non-negative for non-negative remuneration, months and rates |
| PensionCalculations.WelfareEarlierMonthWorthMore | src/lib/pension-calculations.ts:194-202 | with the pre-2003 rate the higher one, moving a month before April 2003 never lowers the pension |
| PensionCalculations.AdjustmentRate | src/lib/pension-calculations.ts:215-236 | exactly 1 at the standard age, linear decrease before it and linear increase after it, without clamping |
| PensionCalculations.AdjustmentRateMonotone | src/lib/pension-calculations.ts:215-236 | a later claim never gets a smaller rate |
| PensionCalculations.AdjustForWorking | src/lib/pension-calculations.ts:239-289 | the basic pension is unchanged; identity for monthly income ≤ 0; otherwise the welfare part is whole and between 0 and its input |
| PensionCalculations.AdjustedPension | src/lib/pension-calculations.ts:354-394 | a multiple of 0.1; without earnings it is the rounded 万円 sum of the floored adjusted parts |
| PensionCalculations.AdjustedPensionWorkingBelow | src/lib/pension-calculations.ts:354-394 | the earnings test never raises the pension |
| PensionCalculations.PensionFromProfile | src/lib/pension-calculations.ts:313-394 | the pension from months, average salary and adjustment is a multiple of 0.1 |
| PensionCalculations.ProfileWorkingBelow | src/lib/pension-calculations.ts:313-394 | earnings never raise the pension computed from a profile |
| PensionCalculations.SalaryEarnings | src/lib/pension-calculations.ts:361-368 | the earnings test only applies when the user works after claiming and that year's salary is positive |
| PensionCalculations.PensionForYear | src/lib/pension-calculations.ts:292-395 | the method computes the specification; 0 before the start age (default 65); a multiple of 0.1 |
| PensionCalculations.PensionWorkingBelow | src/lib/pension-calculations.ts:292-395 | working after claiming never raises a year's pension |
| PensionCalculations.SpouseAge | src/lib/pension-calculations.ts:406-436 | a spouse age exists only for a non-single user with spouse data; none before the marriage year when planning |
| PensionCalculations.SpouseAverage | src/lib/pension-calculations.ts:497-532 | the method computes the specification: the spouse's positive average, or 250,000 yen a month without salary data |
| PensionCalculations.SpouseEarnings | src/lib/pension-calculations.ts:550-556 | the spouse's earnings test applies only when they work after claiming and earn that year |
| PensionCalculations.SpousePensionForYear | src/lib/pension-calculations.ts:398-582 | the method computes the specification; 0 when single or before the spouse's start age; a multiple of 0.1 |
| PensionCalculations.SpousePensionBeforeMarriage | src/lib/pension-calculations.ts:418-426 | a planned marriage gives no spouse pension before the marriage year |
| Loans.ZeroRateRows | src/store/simulator.ts:744-759 | one zero-rate row per remaining year, each the zero-rate row of its year |
| Loans.LevelRows | src/store/simulator.ts:761-786 | one equal-payment row per remaining year, every row with the same payment |
| Loans.PrincipalRows | src/store/simulator.ts:787-805 | one equal-principal row per remaining year, with constant principal and payment = Round1(principal + interest) |
| Loans.Schedule | src/store/simulator.ts:730-810 | exactly max(term, 0) rows, years 1..term, balance never negative, the rows of the branch the rate and type select |
| Loans.ZeroRateIgnoresType | src/store/simulator.ts:744-759 | at zero rate the repayment type does not matter |
| Loans.ZeroRateBalancesFall | src/store/simulator.ts:744-759 | zero-rate balances never rise |
| Loans.PrincipalBalancesFall | src/store/simulator.ts:787-805 | equal-principal balances never rise |
| Loans.LevelBalancesFall | src/store/simulator.ts:761-786 | at a non-negative rate, equal-payment balances never rise when the payment covers the interest on the starting balance |
| Loans.LevelScheduleBalancesFall | src/store/simulator.ts:761-786 | an equal-payment schedule at a positive rate whose payment covers the first year's interest never shows a rising balance |
| Loans.ZeroRateSchedule | src/store/simulator.ts:744-759 | the loop builds the zero-rate rows |
| Loans.LevelSchedule | src/store/simulator.ts:761-786 | the loop builds the equal-payment rows |
| Loans.LevelYear | src/store/simulator.ts:772-784 | one loop step computes the equal-payment row and the balance after it: interest first, the rest repays principal |
| Loans.PrincipalSchedule | src/store/simulator.ts:787-805 | the loop builds the equal-principal rows |
| Loans.LoanSchedule | src/store/simulator.ts:730-810 | the generator builds the schedule |
| Loans.Contribution | src/store/simulator.ts:697-727 | a liability pays only when it is calculated and borrowed, and only in start+1..start+term up to the last year |
| Loans.RepaymentAppend | src/store/simulator.ts:697-727 | repayments of several loans add up |
| Loans.RepaymentOnlyInTerms | src/store/simulator.ts:697-727 | outside every loan's term, or after the last year, nothing is repaid |
| Loans.AddRepayments | src/store/simulator.ts:703-724 | adding one liability's schedule adds its contribution to every year and changes nothing else |
| Loans.LoanRepayments | src/store/simulator.ts:697-727 | every year's total is the sum of the contributions of all liabilities |
| Education.StageAt | src/store/simulator.ts:1218-1236 | no stage outside ages 0-21; university exactly at 18-21; nursery exactly at 0-2 |
| Education.UniversityCost | src/store/simulator.ts:1289-1301 | the university cost is the stage table's university entry |
| Education.ChildCost | src/store/simulator.ts:1199-1239 | non-negative; 0 outside ages 0-21; otherwise the cost of the child's stage and plan |
| Education.ExistingChildrenCostNonNegative | src/store/simulator.ts:1199-1239 | the escalated cost of the existing children is non-negative |
| Education.PlannedChildCost | src/store/simulator.ts:1241-1284 | a planned child costs nothing before it is born, and never a negative amount |
| Education.PlannedChildrenCostNonNegative | src/store/simulator.ts:1241-1284 | the escalated cost of the planned children is non-negative |
| Education.EducationExpense | src/store/simulator.ts:1188-1287 | the total is a multiple of 0.1 |
| Education.EducationExpenseNonNegative | src/store/simulator.ts:1188-1287 | the total is non-negative when the rate is above −100% |
| Education.EducationExpenseOutOfSchool | src/store/simulator.ts:1188-1287 | with every child outside ages 0-21 the total is 0 |
| Education.ExistingChildrenOutOfSchool | src/store/simulator.ts:1199-1239 | existing children outside ages 0-21 cost nothing |
| Education.PlannedChildrenNotYetBorn | src/store/simulator.ts:1241-1284 | planned children not yet born or older than 21 cost nothing |
| Escalation.KindFor | src/components/ExpenseForm.tsx:400-404 | the type follows the category, and is 'other' exactly for categories outside the five known ones |
| Escalation.BlurRateDisagrees | src/components/ExpenseForm.tsx:269-297 | the blur's rule and the rederive rule differ exactly on lines whose category and type name different rates |
| Escalation.RulesAgreeOnConsistentLines | src/components/ExpenseForm.tsx:184-196 | on a line whose type follows its category, both rules give the label's rate |
| Escalation.Escalated | src/store/simulator.ts:394-414 | unescalated amounts stay raw; escalated ones are the scaled amount rounded to 0.1 |
| Escalation.EscalatedAtStart | src/store/simulator.ts:403-409 | in the start year escalation only rounds |
| Escalation.EscalatedNonNegative | src/store/simulator.ts:403-409 | a non-negative raw amount stays non-negative under rates above −100% |
| Escalation.EscalatedMap | src/store/simulator.ts:386-418 | escalating a raw map keeps its years |
| Escalation.Rederived | src/store/simulator.ts:382-422 | only amounts change; years without a raw value are untouched; raw years get the escalated raw value |
| Escalation.RederivedIdempotent | src/store/simulator.ts:381-426 | re-deriving twice with the same rates is re-deriving once |
| Escalation.UnescalatedKeepsRaw | src/store/simulator.ts:411-414 | 'other' lines get their raw amount back |
| Escalation.EscalateYears | src/store/simulator.ts:387-418 | the loop writes the escalated raw years over the old amounts |
| Escalation.RederiveAmounts | src/store/simulator.ts:382-422 | the loop re-derives one line |
| Projection.FilledCount | src/components/ExpenseForm.tsx:167-168 | the years filled are the projected years up to the end age, none when the end age is already past |
| Projection.Invested | src/store/simulator.ts:1008-1034 | nothing unless amount and ratio are positive; a cap of 0 means no cap; otherwise at most the cap |
| Projection.EventTotalAppend | src/store/simulator.ts:899-916 | appending an event adds its amount to exactly its own year, source and type |
| Projection.ProcessLifeEvents | src/store/simulator.ts:899-916 | the loop sums the income and expense events of a year and source |
| Projection.TotalsFor | src/store/simulator.ts:958-1088 | the year's liabilities (sums of absolute amounts) are non-negative |
| Projection.PoolAfter | src/store/simulator.ts:1060-1072 | the pool is never negative and is the rounded sum when that sum is non-negative |
| Projection.NetWorth | src/store/simulator.ts:1091-1092 | net assets are not floored: negative when liabilities exceed assets |
| Projection.RecordOf | src/store/simulator.ts:1099-1131 | a record's pools are never negative |
| Projection.RecordFields | src/store/simulator.ts:1076-1131 | a record shows the rounded running total assets, the net assets, the pools and the return on the previous pool |
| Projection.RecordsOver | src/store/simulator.ts:919-1137 | the fold writes exactly one record per consecutive year |
| Projection.RecordsOverAt | src/store/simulator.ts:919-1137 | the record of year start+i is built from the running state of the years before it |
| Projection.TotalAssetsClosedForm | src/store/simulator.ts:816-840 | running total assets are the start-year assets plus every balance so far |
| Projection.RecordedTotalAssetsOver | src/store/simulator.ts:1076-1077 | each record's total assets are the start assets plus the balances through its year, rounded |
| Projection.NetAssetsCanBeNegative | src/store/simulator.ts:1091-1092 | liabilities above the year's total assets give a negative net |
| Projection.PoolsNonNegative | src/store/simulator.ts:1060-1072 | every record's pools are non-negative |
| Projection.ReturnOnPreviousPool | src/store/simulator.ts:1037-1038 | the return grows the previous pool, or the seed in the first year or when that pool is 0 |
| Projection.PoolCarried | src/store/simulator.ts:1037-1072 | the pool a record shows is the one the next year grows from |
| Projection.Projection | src/store/simulator.ts:684-688 | the projection has a record exactly for each year from the start year to the death-age year |
| Projection.AddedEventTotals | src/store/simulator.ts:899-916 | an added event changes only its own year's event totals |
| Projection.InvestmentEventKeepsBalance | src/store/simulator.ts:1045-1064 | an investment-source event moves the pool, not the balance |
| Projection.CorporateDoubleCount | src/store/simulator.ts:985-993 | a corporate line of type 'other' and category 'business' is counted in both corporate buckets |
| Projection.ExpenseBuckets | src/store/simulator.ts:958-995 | the loop sums each expense bucket |
| Projection.YearTotalsOf | src/store/simulator.ts:919-1088 | the method computes the year's totals |
| Projection.ProjectYear | src/store/simulator.ts:1037-1131 | the method computes the year's record and the running state after it |
| Projection.StepYear | src/store/simulator.ts:919-1137 | one step extends the fold by one year |
| Projection.TotalsOfYears | src/store/simulator.ts:919-1088 | the loop computes the totals of every projected year |
| Projection.FoldYears | src/store/simulator.ts:919-1137 | the loop builds the records of the fold |
| Projection.ProjectCashFlow | src/store/simulator.ts:680-1140 | the rebuild computes the projection |
| Sync.RewriteLine | src/store/simulator.ts:855-896 | only the first line with the name changes; names and length are kept |
| Sync.PensionValueIsCalculated | src/store/simulator.ts:855-867 | the pass's age check agrees with the calculator: the value is the calculator's when automatic, else 0 |
| Sync.SpousePensionValueIsCalculated | src/store/simulator.ts:870-896 | the spouse pass's age derivation agrees with the spouse calculator's |
| Sync.PensionLineZero | src/store/simulator.ts:855-867 | the pension line is 0 before the start age and in every year of a line that is not automatic |
| Sync.PensionLineCalculated | src/store/simulator.ts:855-867 | from the start age on, an automatic pension line holds the calculator's value |
| Sync.PensionReadsSalaryLine | src/lib/pension-calculations.ts:340-368 | the user's pension reads no income line but the salary line, so writing the pension line first changes nothing |
| Sync.SpousePensionReadsSpouseLine | src/lib/pension-calculations.ts:464-556 | the spouse's pension reads no income line but the spouse's salary line |
| Sync.PensionValueOf | src/store/simulator.ts:855-867 | the method computes a year's pension value |
| Sync.SpousePensionValueOf | src/store/simulator.ts:870-896 | the method computes a year of the spouse pension line |
| Sync.PensionLineAmounts | src/store/simulator.ts:855-867 | the loop writes the pension value over every projected year |
| Sync.WritePensionYear | src/store/simulator.ts:855-867 | writing one more year extends the pension line by that year's value |
| Sync.SpousePensionLineAmounts | src/store/simulator.ts:870-896 | the loop writes the spouse pension value over every projected year |
| Sync.WriteSpousePensionYear | src/store/simulator.ts:870-896 | writing one more year extends the spouse pension line by that year's value |
| Sync.WritePensionLines | src/store/simulator.ts:845-896 | the method writes both pension lines |
| Sync.SyncCashFlow | src/store/simulator.ts:680-1140 | the rebuild writes the pension lines, leaves the corporate book alone, and its table is the projection of the synced books |
| Store.DefaultStaffCostCountedTwice | src/store/simulator.ts:314-320 | the default corporate staff cost is in both corporate buckets |
| SimulatorTypes.With | src/components/AssetsLiabilitiesForm.tsx:295-300 | replacing one book of a section changes that book only |
| SimulatorTypes.FirstIncomeNamed | src/store/simulator.ts:845-846 | the index found is the first line with the name; none found means no line has it |
| Store.MergeParameters | src/store/simulator.ts:367-376 | each of the five fields takes the update's value when the update passes it and keeps its old value otherwise |
| Store.MergeParametersIdempotent | src/store/simulator.ts:368-376 | merging the same update twice is merging it once |
| Store.RederivedItems | src/store/simulator.ts:381-423 | every line of a book is re-derived |
| Store.RederivedExpensesIdempotent | src/store/simulator.ts:367-430 | repeating setParameters with unchanged rates is idempotent on the expenses |
| Store.RederiveSection | src/store/simulator.ts:382-422 | the loop re-derives one book |
| Store.InitialPensionLine | src/store/simulator.ts:499-561 | the fresh income table's fourth line is the automatic pension line; every line starts empty |
| Store.InitialSpousePensionLine | src/store/simulator.ts:562-578 | a spouse pension line exists exactly when the user is not single |
| Store.InitialSpouseIncomeLine | src/store/simulator.ts:580-593 | a spouse income line exists exactly when a spouse with a paid occupation is expected |
| Store.InitialIncomeRatio | src/store/simulator.ts:499-561 | with a ratio set, every fresh line invests that ratio |
| Store.FillLine | src/store/simulator.ts:601-648 | filling a named line keeps length and names |
| Store.FilledLivingLine | src/store/simulator.ts:605-616 | the living line holds the filled values |
| Store.InitialLivingLine | src/store/simulator.ts:605-616 | the living line holds the escalated budget with the raw budget, so re-deriving keeps it |
| Store.InitialEducationLineEscalatedTwice | src/store/simulator.ts:630-648 | the education line's raw amount is already escalated, so setParameters escalates it again |
| Store.FillExpenseLine | src/store/simulator.ts:601-648 | the loop fills one named line |
| Store.FillLines | src/store/simulator.ts:601-648 | the three loops leave the living, housing and education lines filled as the specification function says |
| Store.InitializeExpenses | src/store/simulator.ts:596-650 | only the personal table changes, to its living, housing and education lines filled from the given yearly values; the corporate table is untouched |
| Store.Simulator.constructor | src/store/simulator.ts:257-344 | the store starts with the defaults, no events and an empty table |
| Store.Simulator.AddLifeEvent | src/store/simulator.ts:346-350 | the event is appended |
| Store.Simulator.RemoveLifeEvent | src/store/simulator.ts:352-356 | only index i is removed, the rest keep their order |
| Store.Simulator.SyncCashFlow | src/store/simulator.ts:680-1140 | the income lines and table become those of the rebuild |
| Store.Simulator.SetParameters | src/store/simulator.ts:367-430 | parameters merged, expenses re-derived, table rebuilt |
| Store.Simulator.InitializeExpenseData | src/store/simulator.ts:596-650 | the stored expense tables become the ones seeded from the stored basic info, parameters and current year; nothing else changes |
| Store.Simulator.InitializeFormData | src/store/simulator.ts:489-677 | income, expenses, assets and liabilities become the seeded tables |
| Store.Simulator.SetBasicInfo | src/store/simulator.ts:361-365 | the info is stored, the form data is seeded from it and the table is rebuilt |
| ItemIds.Ids | src/components/ExpenseForm.tsx:344 | the ids of a table's lines, one per line, in order |
| ItemIds.MaxNumber | src/components/ExpenseForm.tsx:344 | the maximum is defined exactly when every id is numeric, and bounds them all |
| ItemIds.NextIdFresh | src/components/ExpenseForm.tsx:344 | with numeric ids the new id is max + 1 and differs from every existing id |
| ItemIds.NextIdAfterNaN | src/components/IncomeForm.tsx:476 | one non-numeric id makes the next id "NaN", and the one after it too |
| ItemIds.NextIdOrZeroFresh | src/components/AssetsLiabilitiesForm.tsx:529 | with non-numbers read as 0, the new id is max + 1 and is fresh |
| AssetsLiabilitiesForm.TriangleClosedForm | src/components/AssetsLiabilitiesForm.tsx:94-102 | the sum 0 + 1 + … + (k−1) is k(k−1)/2 |
| AssetsLiabilitiesForm.InterestSumClosedForm | src/components/AssetsLiabilitiesForm.tsx:94-102 | the loop's interest total has a closed form |
| AssetsLiabilitiesForm.LoanPreview | src/components/AssetsLiabilitiesForm.tsx:61-112 | all zeros when amount or term is ≤ 0; at zero rate the total is the amount and interest 0; with level payments the total is the monthly annuity times the months, rounded, and the interest is that total less the amount, rounded |
| AssetsLiabilitiesForm.LevelPaymentInterestNonNegative | src/components/AssetsLiabilitiesForm.tsx:85-90 | with level payments at a positive rate the total shown is at least the rounded amount and the interest shown is never negative |
| AssetsLiabilitiesForm.EqualPrincipalInterest | src/components/AssetsLiabilitiesForm.tsx:93-111 | with level principal the interest shown is the rounded interest on the average balance, and the total shown is the amount plus that interest, rounded |
| AssetsLiabilitiesForm.LevelPrincipalInterest | src/components/AssetsLiabilitiesForm.tsx:97-104 | the month-by-month interest total equals `amount · monthlyRate · (months + 1) / 2` |
| AssetsLiabilitiesForm.PreviewAgreesWithMortgage | src/components/AssetsLiabilitiesForm.tsx:79-91 | the equal-payment preview payment is the mortgage calculator's |
| AssetsLiabilitiesForm.PreviewPaymentRepaysLoan | src/components/AssetsLiabilitiesForm.tsx:79-91 | the previewed monthly payment repays the loan over the term |
| AssetsLiabilitiesForm.AccumulateInterest | src/components/AssetsLiabilitiesForm.tsx:94-102 | the loop accumulates the interest total |
| AssetsLiabilitiesForm.CalculatePreview | src/components/AssetsLiabilitiesForm.tsx:61-112 | the method computes the preview |
| AssetsLiabilitiesForm.LoanAmounts | src/components/AssetsLiabilitiesForm.tsx:339-348 | the amounts hold the loan in the start year and schedule row k's balance in year start+k+1, and nothing else |
| AssetsLiabilitiesForm.WriteBalances | src/components/AssetsLiabilitiesForm.tsx:339-348 | the loop writes the loan amounts |
| AssetsLiabilitiesForm.CashMoved | src/components/AssetsLiabilitiesForm.tsx:325-384 | the first cash asset gains the amount in the start year; without one, assets are unchanged |
| AssetsLiabilitiesForm.LoanApplied | src/components/AssetsLiabilitiesForm.tsx:320-390 | without a target nothing changes; the target liability becomes the calculated loan, others are unchanged, and the cash moves |
| AssetsLiabilitiesForm.AppliedBalances | src/components/AssetsLiabilitiesForm.tsx:336-364 | the applied loan is flagged, holds the terms and original amount, and the schedule's balances in exactly its years |
| AssetsLiabilitiesForm.CalculatedBalances | src/components/AssetsLiabilitiesForm.tsx:336-364 | the same for the liability update on its own |
| AssetsLiabilitiesForm.AppliedTerms | src/components/AssetsLiabilitiesForm.tsx:336-364 | an applied loan is one the projection repays, with the applied terms |
| AssetsLiabilitiesForm.AppliedLoanIsRepaid | src/components/AssetsLiabilitiesForm.tsx:447-526 | the projection repays an applied loan by its schedule's payment each year of its term, the store's generator being the same algorithm |
| AssetsLiabilitiesForm.LoanCancelled | src/components/AssetsLiabilitiesForm.tsx:393-444 | a no-op unless the loan is calculated with a start year and amount; otherwise amounts cleared, flags reset, cash reduced but not below 0 |
| AssetsLiabilitiesForm.ApplyThenCancel | src/components/AssetsLiabilitiesForm.tsx:377-432 | apply then cancel leaves the liability empty, not as it was, and the start-year cash at max(0, original) |
| AssetsLiabilitiesForm.LiabilityAmountChanged | src/components/AssetsLiabilitiesForm.tsx:280-310 | edits to a calculated loan outside its start year are ignored; otherwise only that line changes |
| AssetsLiabilitiesForm.LiabilityEditStored | src/components/AssetsLiabilitiesForm.tsx:292-310 | the stored amount is the absolute value and other years are kept |
| AssetsLiabilitiesForm.CalculatedLoanEditable | src/components/AssetsLiabilitiesForm.tsx:286-290 | a calculated loan can only change in its start year |
| AssetsLiabilitiesForm.AssetAdded | src/components/AssetsLiabilitiesForm.tsx:528-545 | a default 'other' asset with the next id is appended |
| AssetsLiabilitiesForm.AssetAddedFresh | src/components/AssetsLiabilitiesForm.tsx:528-545 | the new asset's id is numeric and fresh |
| ExpenseForm.NewAmounts | src/components/ExpenseForm.tsx:166-200 | the filled years get the escalated initial amount |
| ExpenseForm.NewRaw | src/components/ExpenseForm.tsx:166-200 | the filled years get the initial amount as raw value |
| ExpenseForm.FillNew | src/components/ExpenseForm.tsx:166-200 | the years loop writes the new amounts and the new raw amounts |
| ExpenseForm.Autofilled | src/components/ExpenseForm.tsx:152-219 | without a target nothing changes; other lines are unchanged; the target merges the new maps over its old ones |
| ExpenseForm.AutofillFilledYear | src/components/ExpenseForm.tsx:166-211 | a filled year holds the escalated amount and the raw initial amount |
| ExpenseForm.AutofillOtherYear | src/components/ExpenseForm.tsx:166-211 | a year after the end age keeps its old values |
| ExpenseForm.AutofillBeforeCurrentAge | src/components/ExpenseForm.tsx:166-211 | an end age before the current age fills nothing |
| ExpenseForm.ApplyAutofill | src/components/ExpenseForm.tsx:152-219 | the method applies the autofill |
| ExpenseForm.BlurredLine | src/components/ExpenseForm.tsx:256-303 | the raw value is stored in that year and the amount is the value escalated by the blur's rule; nothing else changes |
| ExpenseForm.ExpenseBlurred | src/components/ExpenseForm.tsx:246-315 | only the target line changes; unknown ids change nothing |
| ExpenseForm.BlurWithoutRate | src/components/ExpenseForm.tsx:294-297 | an unescalated line stores the value itself |
| ExpenseForm.BlurAgreesWithRederive | src/components/ExpenseForm.tsx:246-315 | on a consistent line re-deriving after a blur keeps the blurred amount |
| ExpenseForm.CategoryChanged | src/components/ExpenseForm.tsx:387-473 | only the target lines change: category set, type from the category, raw years re-derived |
| ExpenseForm.CategoryChangeRederives | src/components/ExpenseForm.tsx:423-463 | every raw year gets the raw value escalated by the new category |
| ExpenseForm.CategoryChangeWithoutRaw | src/components/ExpenseForm.tsx:392-408 | a line without raw values only changes category and type |
| ExpenseForm.ChangeCategory | src/components/ExpenseForm.tsx:387-473 | the method applies the category change |
| ExpenseForm.ExpenseAdded | src/components/ExpenseForm.tsx:343-359 | an 'other' line with the next id and empty raw values is appended |
| ExpenseForm.ExpenseAddedFresh | src/components/ExpenseForm.tsx:343-359 | with numeric ids the new id is fresh |
| ExpenseForm.FormatAgreesWithRule | src/components/ExpenseForm.tsx:476-484 | the rate label agrees with the escalation rule on lines whose type follows the category or is 'other' |
| ExpenseForm.FormatDisagreesOnMixedLine | src/components/ExpenseForm.tsx:476-484 | a category-'other' line of type 'living' is labelled 0% yet escalated |
| IncomeForm.NetIncomeTargetIff | src/components/IncomeForm.tsx:291-298 | a target is the salary line of an employee-type user or the spouse line of an employee-type spouse, and nothing else |
| IncomeForm.EarnerOccupation | src/components/IncomeForm.tsx:291-298 | a target's earner has an employee-type occupation |
| IncomeForm.TargetPaysSocialInsurance | src/components/IncomeForm.tsx:345-352 | a target's net is the gross minus social insurance and taxes |
| IncomeForm.Gross | src/components/IncomeForm.tsx:330-342 | the autofilled gross is the floor of the raised amount |
| IncomeForm.GrossAtStart | src/components/IncomeForm.tsx:330-342 | the first year's gross is the floored initial amount |
| IncomeForm.GrossNondecreasing | src/components/IncomeForm.tsx:330-342 | with non-negative raises the gross series is nondecreasing |
| IncomeForm.NewIncome | src/components/IncomeForm.tsx:323-357 | the filled years get the net for personal targets, the gross otherwise |
| IncomeForm.NewGross | src/components/IncomeForm.tsx:323-357 | the filled years get the gross |
| IncomeForm.FillNew | src/components/IncomeForm.tsx:323-357 | the years loop writes the new amounts and the new gross amounts |
| IncomeForm.Autofilled | src/components/IncomeForm.tsx:308-372 | without a target nothing changes; other lines are unchanged; the target merges the new maps |
| IncomeForm.AutofillNetYear | src/components/IncomeForm.tsx:345-367 | a personal target's filled year holds the net, and the gross as original amount |
| IncomeForm.AutofillGrossYear | src/components/IncomeForm.tsx:345-367 | other lines hold the gross and lose their original amounts |
| IncomeForm.AutofillOtherYear | src/components/IncomeForm.tsx:323-367 | years after the end age keep their amounts |
| IncomeForm.ApplyAutofill | src/components/IncomeForm.tsx:308-372 | the method applies the autofill |
| IncomeForm.IncomeBlurred | src/components/IncomeForm.tsx:379-413 | only personal target lines change, storing gross as original amount and net as amount |
| IncomeForm.BlurKeepsGrossAndNet | src/components/IncomeForm.tsx:397-406 | after a blur the year holds the value and its net, other years unchanged |
| IncomeForm.RatioSet | src/components/IncomeForm.tsx:438-456 | only the ratio of the target line changes |
| IncomeForm.CapSet | src/components/IncomeForm.tsx:457-473 | only the cap of the target line changes |
| IncomeForm.SettersCommute | src/components/IncomeForm.tsx:438-473 | the two setters commute and the later ratio wins |
| IncomeForm.IncomeAdded | src/components/IncomeForm.tsx:475-492 | a line with the next id, ratio `investmentRatio or 10` and cap `or 100` is appended |
| IncomeForm.IncomeAddedFresh | src/components/IncomeForm.tsx:475-492 | with numeric ids the new id is fresh and the defaults apply |
| CashFlowForm.CalculateAge | src/components/CashFlowForm.tsx:19-21 | the age is the current age exactly in the start year and 0 exactly in the birth year |
| CashFlowForm.ChildBirthYears | src/components/CashFlowForm.tsx:43-51 | an existing child's birth year is start year − its age |
| CashFlowForm.PlannedBirthYears | src/components/CashFlowForm.tsx:53-61 | a planned child's birth year is start year + years from now |
| CashFlowForm.PushBirthLabels | src/components/CashFlowForm.tsx:43-61 | the loop pushes the birth labels |
| CashFlowForm.PushEventTexts | src/components/CashFlowForm.tsx:64-69 | the loop pushes the event texts |
| CashFlowForm.DescribeYear | src/components/CashFlowForm.tsx:28-72 | the method builds the description |
| CashFlowForm.BirthLabelsMembers | src/components/CashFlowForm.tsx:43-61 | label n appears exactly for a child born that year, numbered from the first number |
| CashFlowForm.EventTextsEmpty | src/components/CashFlowForm.tsx:64-69 | no texts exactly when no event matches the year and source |
| CashFlowForm.EventTextsAppend | src/components/CashFlowForm.tsx:64-69 | texts follow the event list's order |
| CashFlowForm.OnlyPersonalHasFamilyLabels | src/components/CashFlowForm.tsx:33-61 | other sources carry no marriage or birth label |
| CashFlowForm.FamilyBirthLabel | src/components/CashFlowForm.tsx:43-61 | label n appears exactly when an existing child n, or planned child n numbered after the existing ones, is born that year |
| CashFlowForm.PersonalBirthLabel | src/components/CashFlowForm.tsx:33-61 | the personal description holds label n exactly when that child is born that year |
| CashFlowForm.PersonalMarriageLabel | src/components/CashFlowForm.tsx:35-40 | the marriage label appears exactly in the planned marriage year |
| CashFlowForm.FamilyLabelsEmpty | src/components/CashFlowForm.tsx:33-61 | no family labels exactly when no marriage or birth falls in the year |
| CashFlowForm.DescriptionEmpty | src/components/CashFlowForm.tsx:28-72 | the description is empty exactly when nothing matches |
| CashFlowForm.AmountBlur | src/components/CashFlowForm.tsx:132-169 | the income blur of the income form followed by a rebuild; otherwise nothing changes |
| CashFlowForm.ExpenseBlur | src/components/CashFlowForm.tsx:219-288 | the expense blur of the expense form followed by a rebuild; unknown ids change nothing |
| CashFlowForm.Quoted | src/components/CashFlowForm.tsx:333-336 | each data cell is wrapped in quotes without escaping |
| CashFlowForm.ColumnsOf | src/components/CashFlowForm.tsx:297-324 | one column per income or expense line, carrying its name and amounts, in order |
| CashFlowForm.ColumnAligned | src/components/CashFlowForm.tsx:290-336 | header and rows have the same width and column i carries line i's name and amount |
| CashFlowForm.ColumnOrder | src/components/CashFlowForm.tsx:297-324 | columns run personal income, corporate income, personal expenses, corporate expenses |
| CashFlowForm.MissingYearTotals | src/components/CashFlowForm.tsx:308-315 | a missing cash-flow year shows 0 totals |
| CashFlowForm.CsvLineBreaks | src/components/CashFlowForm.tsx:333-336 | the text has one line break per year plus any inside cells |
| CashFlowForm.CsvLines | src/components/CashFlowForm.tsx:290-336 | without breaks in names and texts, the CSV has exactly one line per year after the header |
| CashFlowForm.DescriptionNoBreak | src/components/CashFlowForm.tsx:28-72 | descriptions contain no line break when the event texts have none |
| CashFlowForm.ItemsByCategory | src/components/CashFlowForm.tsx:425-439 | the lines kept are exactly those whose category, 'other' when missing, matches |
| CashFlowForm.ItemsByCategoryOne | src/components/CashFlowForm.tsx:438 | one line is kept exactly when its category matches |
| CashFlowForm.ItemsByCategoryAppend | src/components/CashFlowForm.tsx:438 | filtering a concatenation is concatenating the filtered parts, so the kept lines keep their order |
| CashFlowForm.ItemsByCategoryCounts | src/components/CashFlowForm.tsx:438 | a matching line is kept as many times as it occurs, any other line never |
| LifeEventForm.Parse | src/components/LifeEventForm.tsx:22-29 | the schema accepts exactly valid values and returns the event they describe |
| LifeEventForm.ParseFormOf | src/components/LifeEventForm.tsx:22-29 | every event with a description and a non-negative amount parses back to itself |
| LifeEventForm.FormOfParse | src/components/LifeEventForm.tsx:22-29 | accepted values are those of the event they parse to |
| LifeEventForm.OtherOfferedForBothTypes | src/components/LifeEventForm.tsx:33-36 | その他 is offered for both types |
| LifeEventForm.YearOptions | src/components/LifeEventForm.tsx:20 | the current year and the fifty after it are offered |
| LifeEventForm.ResetOffersItsValues | src/components/LifeEventForm.tsx:53-63 | the reset form offers its year and category and is rejected until a description is entered |
| LifeEventForm.EventForm.constructor | src/components/LifeEventForm.tsx:40-49 | the form starts with the reset values |
| LifeEventForm.EventForm.ChangeType | src/components/LifeEventForm.tsx:139-142 | a type change resets the category to その他 |
| LifeEventForm.EventForm.Submit | src/components/LifeEventForm.tsx:53-63 | accepted values are appended as an event and the form resets; rejected values change nothing |
| LifeEventForm.MovedUpPositions | src/components/LifeEventForm.tsx:268-273 | move-up swaps index i with i−1, keeps every other position and the events themselves |
| LifeEventForm.MovedUpTwice | src/components/LifeEventForm.tsx:268-273 | moving up twice at the same index restores the list |
| LifeEventForm.SwapUp | src/components/LifeEventForm.tsx:269-272 | the array swap is the move-up |
| LifeEventForm.MoveUp | src/components/LifeEventForm.tsx:268-273 | the stored list is moved up, a no-op at index 0 |
| BasicInfoForm.Stripped | src/components/BasicInfoForm.tsx:51-57 | parsing drops the spouse fields the schema does not declare |
| BasicInfoForm.Parse | src/components/BasicInfoForm.tsx:26-88 | the schema accepts exactly the valid info |
| BasicInfoForm.ParseIdempotent | src/components/BasicInfoForm.tsx:26-88 | stripped valid info stays valid, differs only in the spouse, and parses to itself |
| BasicInfoForm.Options | src/components/BasicInfoForm.tsx:19-21 | a picker offers n consecutive values from the first |
| BasicInfoForm.PickersMatchSchema | src/components/BasicInfoForm.tsx:19-29 | the age, year and years-from-now pickers offer exactly the schema's ranges |
| BasicInfoForm.PensionPickerOffersRejectedAges | src/components/BasicInfoForm.tsx:86-787 | the pension picker offers 60-85 and the schema rejects 76-85 |
| BasicInfoForm.WorkStartPickerWithinSchema | src/components/BasicInfoForm.tsx:760 | the work-start picker stays within the schema exactly when the current age is at most 86 |
| BasicInfoForm.HousingFor | src/components/BasicInfoForm.tsx:131-155 | the switch fills only the chosen branch with its defaults |
| BasicInfoForm.HousingDefaultsValid | src/components/BasicInfoForm.tsx:131-155 | both defaults satisfy the schema |
| BasicInfoForm.NewChildrenValid | src/components/BasicInfoForm.tsx:157-196 | the new child and planned child satisfy the schema |
| BasicInfoForm.InfoForm.constructor | src/components/BasicInfoForm.tsx:94-113 | the form starts with the given values, on which the fallbacks are identities for schema-valid info |
| BasicInfoForm.InfoForm.ChangeMaritalStatus | src/components/BasicInfoForm.tsx:126-129 | the status is set and the spouse info cleared |
| BasicInfoForm.InfoForm.ChangeHousingType | src/components/BasicInfoForm.tsx:131-155 | the housing becomes the default of the chosen type |
| BasicInfoForm.InfoForm.AddChild | src/components/BasicInfoForm.tsx:157-172 | a default child is appended |
| BasicInfoForm.InfoForm.RemoveChild | src/components/BasicInfoForm.tsx:174-179 | only index i is removed |
| BasicInfoForm.InfoForm.AddPlannedChild | src/components/BasicInfoForm.tsx:181-196 | a default planned child is appended |
| BasicInfoForm.InfoForm.RemovePlannedChild | src/components/BasicInfoForm.tsx:198-203 | only index i is removed |
| BasicInfoForm.InfoForm.Submit | src/components/BasicInfoForm.tsx:121-124 | accepted info is stored stripped; rejected info changes nothing |
| BasicInfoForm.ChildListEdits | src/components/BasicInfoForm.tsx:157-179 | adding and removing keep a valid child list valid |
| BasicInfoForm.PlannedChildListEdits | src/components/BasicInfoForm.tsx:181-203 | the same for planned children |
| BasicInfoForm.ChildEditsKeepValid | src/components/BasicInfoForm.tsx:157-203 | the four list edits keep valid info valid |

## Left out

- Saving to and loading from localStorage (src/store/simulator.ts:449-486), history timestamps from `Date.now()` (src/store/simulator.ts:1172-1182), the Blob/DOM download of the CSV (src/components/CashFlowForm.tsx:338-347) and debug `console.log` output: these are I/O.
- React rendering, zustand `set`/`get`, the setter-triggered rebuild cascade and modal state: the rebuild is the explicit `Sync.SyncCashFlow` / `Store.Simulator.SyncCashFlow`, called where the handlers call it.
- The `try`/`catch` around the rebuild: the modelled rebuild cannot fail.
- Charts, printing and the guide and help pages (`SimulationResults.tsx`, `GuidePage.tsx`, `helpContent.tsx`): no logic. The guide's 47万/51万 earnings-test thresholds are text; the thresholds the code uses come from the pension constants, which are a parameter here.
- The pension constants file `./pension-constants` is not part of this model: its values are the `PensionConstants` parameter.
- The current calendar year (src/lib/calculations.ts:84, src/lib/pension-calculations.ts:71, src/store/simulator.ts:261) is a parameter. The rent formula measures its increases from that year, as the code does.
- JavaScript's conversion of numbers to text (`${x}`, template strings) is the `fmt` parameter; integers use their decimal digits.
- IEEE-754 behaviour: money is exact `real`. Products such as `x*0.3` are exact. `toFixed(1)` and `Math.round(x*10)/10` are both `Round1`, so they differ from the program on negative ties and on binary-inexact ties.
- `Infinity` as an investment cap is modelled as "no bound" (a cap of 0). `Math.pow` with base 0 and a negative exponent (an infinite factor at a −100% rate) gives 0 in `Money.Factor`.
- `Calculations.NetIncomeWithRaise`: states only the start-year value and that every year is the net of some whole gross income, not the compounded gross itself.
- `Calculations.RentCost`: states the current-year value and the rounding; the growth after the current year and renewal fees are in the body only. At a renewal interval of 0 it charges no renewal fee, where the program divides by zero and yields NaN (or an infinity after the current year); the discrepancy is under "## Findings" (`Calculations.RentCostAsWritten`).
- `Projection.TotalsFor`: its own contract states only the sign of the liability totals; the bucket sums are stated by `Projection.ExpenseBuckets` and `Projection.YearTotalsOf`.
- `Education.EducationExpense`: states the rounding; the per-child costs are stated by `Education.ChildCost` and `Education.PlannedChildCost`.
- `PensionCalculations.PensionFromProfile`: pays on the corrected months of `PensionCalculations.PensionMonthsOf`, so it differs from the program when the months counted before April 2003 exceed the months worked (the overcount under "## Findings"); elsewhere the two counts agree (`PensionCalculations.PensionMonthsAgree`).
- `PensionCalculations.PensionForYear`: goes through `PensionFromProfile`, so it pays on the corrected months and differs from `calculatePensionForYear` for the same inputs.
- `PensionCalculations.SpousePensionForYear`: goes through `PensionFromProfile`, so it pays on the corrected months and differs from `calculateSpousePensionForYear` for the same inputs. The pension lines `Sync` writes inherit this.
- `Store.Simulator.SetBasicInfo`: takes a whole `BasicInfo`, while the store merges a partial one into the stored info; every caller passes a complete parsed profile.
- `BasicInfoForm.InfoForm.constructor`: starts from the stored info as given, without the form's fallbacks (`'single'`, the default rent, 22, 65, `false`) for empty fields. The fallbacks change nothing on schema-valid info, because the schema rejects ages of 0 and requires a marital status and housing.
- `Money.NumberOf`: reads an id as a plain digit string. JavaScript's `Number` also accepts signs, surrounding spaces, exponents, fractions and hexadecimal, which the model reads as not numeric. The forms only create ids as `String(max + 1)`, so no id they create is read differently.
- Handlers that the model does not name: plain amount edits without a blur, renaming, removing asset, liability, income and expense lines, and `updateCashFlowValue`. These are one-field copies like the setters that are modelled.

## Findings

| source | as written | input that shows it | evidently intended | confidence | as-written member | corrected member |
|---|---|---|---|---|---|---|
| src/lib/pension-calculations.ts:70-84 | the months before April 2003 count from the work start age to the age in April 2003, capped at 240, but are not limited by the months actually worked | a 90-year-old employee in 2025 who worked from 50 to 60: 120 months worked, 220 counted before April 2003, 0 after | the pre-2003 months are at most the months worked, so the two parts sum to the employees' pension months | not executed | PensionCalculations.PensionMonthsAsWrittenOvercounts | PensionCalculations.PensionMonthsOf |
| src/lib/calculations.ts:86 | the renewal count divides the years since the current year by the renewal interval without a guard, and the profile schema accepts an interval of 0 (src/components/BasicInfoForm.tsx:40) | a renter with an interval of 0: in the current year the count is 0/0, so the housing cost is NaN; in later years it is infinite | an interval of 0 means no renewals, so the cost is the escalated rent alone | not executed | Calculations.RentZeroIntervalNotFinite | Calculations.RentCost |

The program also keeps, and the model reproduces, several behaviours that are shown by lemmas rather than corrected:

- The default corporate staff cost is counted twice (`Projection.CorporateDoubleCount`, `Store.DefaultStaffCostCountedTwice`).
- The pension-age picker offers ages the schema rejects (`BasicInfoForm.PensionPickerOffersRejectedAges`).
- The seeded education line is escalated twice by `setParameters` (`Store.InitialEducationLineEscalatedTwice`).
- The blur's escalation rule differs from the rederive rule on mixed lines (`Escalation.BlurRateDisagrees`).
- The rate label differs from the escalation rule on mixed lines (`ExpenseForm.FormatDisagreesOnMixedLine`).
