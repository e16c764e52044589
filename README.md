# Financial calculation engine — a Dafny model

This project models the financial core of a field-service business
application. Its pure functions turn a contractor's yearly overhead into a
billable hourly rate, price the service catalogue (the "pricing matrix") at
that rate, and cost the line items of a job and total them.

All the modelled code is pure: it is a set of functions from inputs to
results. The model is therefore written as Dafny datatypes, functions and
lemmas. decimal.js numbers are modelled as exact `real`s. Its rounding,
`toDecimalPlaces(2)` and `toFixed(2)` under the default `ROUND_HALF_UP`,
is modelled as `Decimal.RoundHalfUp2`. A contract says that a returned
figure c is the exact figure x rounded with `RoundsTo(x, c)`. That holds
when c is a whole number of cents (`IsCents`) in the half-open window of
width one cent that rounding maps onto c (`HalfUpWindow`), and by
`RoundHalfUp2Unique` it pins c down to the rounding of x. The overhead
service, the pricing matrix and the line items of job costing compute
exactly and round each returned figure once. Two places round twice:
- The engine's overhead calculator rounds the hourly rate before it derives
  the yearly gross. It also rounds the daily total before it divides it
  among the trucks (`OverheadCalculator.DailyPerTruckRoundsTwice`).
- The job totals add up the line figures that were already rounded, the
  line cost and the line total, and then round the sums again. Labor hours
  are rounded per line before they are multiplied by the quantity and
  summed (`JobCostingService.TotalsOfCalculatedItems`,
  `JobCostingService.TotalLaborHoursOfCalculatedItems`,
  `JobCostingService.JobRevenueRoundsTwice`).

Modules:

- `Js` — the raw values the engine receives (`undefined`, `null`, `NaN`,
  an unparseable value, a number) and the three defaulting idioms:
  - a destructuring default replaces only `undefined` (`WithDefault`);
  - `x || d` also replaces 0 (`Or`);
  - `x ?? d` keeps 0 (`Coalesce`).
- `Decimal` — half-up rounding to cents and its laws, plus the left-to-right
  decimal sum `SumOf` that both `sumValues` and the `reduce` calls compute.
- `Helpers` — `toDecimal`, `safeDivide`, `roundToCents`, `toPercentage` and
  `sumValues`.
- `OverheadCalculator` — `calculateOverhead` of the financial engine. It
  reads a camel-case input with destructuring defaults, uses the helpers,
  and rounds the hourly rate before it derives the yearly gross.
- `OverheadService` — `calculateResults` of the overhead module, the
  variant the pricing and job services use. It reads a stored snake-case
  record with `||` fallbacks and rounds only when it returns.
- `OverheadVariants` — the two overhead variants side by side, with
  concrete inputs on which they disagree.
- `PricingService` — the pure part of `getHourlyRate` and
  `calculateServicePricing`.
- `JobCostingService` — `calculateLineItems` and `calculateJobTotals`.

Every step of an overhead calculation is a function of a `Figures` value:
the numbers the calculation reads from its input, after defaulting. A
`Read` function produces it. Its contract states each default and gives
the overhead total and each converted amount it reads.

## Model

| member | source | states |
|---|---|---|
| Js.WithDefault | src/core/financialEngine/overheadCalculator.js:11-43 | a destructuring default replaces `undefined` and nothing else; `null` and every other value pass through |
| Js.Or | src/modules/overhead/overhead.service.js:22-26 | `x \|\| d` yields `d` for a missing value and for 0, and the stored number otherwise |
| Js.Coalesce | src/modules/pricing/pricing.service.js:23-25 | `x ?? d` yields `d` only for a missing value; a stored 0 is kept |
| Decimal.RoundHalfUp2 | src/core/financialEngine/helpers.js:35-37 | the result is a whole number of cents, within half a cent of the input with ties away from zero, and of the same sign |
| Decimal.RoundHalfUp2Unique | src/core/financialEngine/helpers.js:35-37 | the rounded value is the only cent value in the input's half-up window, so the window determines the rounding |
| Decimal.RoundHalfUp2Negate | src/core/financialEngine/helpers.js:35-37 | rounding commutes with negation, since ties go away from zero on both sides |
| Decimal.SumOfPermutation | src/modules/jobCosting/jobCosting.service.js:66-79 | a decimal left-fold sum does not depend on the order of the elements |
| Decimal.SumOfCents | src/modules/jobCosting/jobCosting.service.js:66-79 | a sum of cent values is a cent value |
| Helpers.ToDecimal | src/core/financialEngine/helpers.js:8-15 | a number converts to itself; `undefined`, `null`, `NaN` and an unparseable value all convert to 0, so the conversion never fails |
| Helpers.SafeDivide | src/core/financialEngine/helpers.js:24-28 | with a zero denominator the result is the default (0 when omitted); otherwise the result times the denominator gives back the numerator |
| Helpers.RoundToCents | src/core/financialEngine/helpers.js:35-37 | the result is in cents and lies in the half-up window of the converted input |
| Helpers.RoundToCentsIdempotent | src/core/financialEngine/helpers.js:35-37 | rounding an already rounded value again changes nothing |
| Helpers.RoundToCentsMonotone | src/core/financialEngine/helpers.js:35-37 | rounding to cents never reverses the order of two numbers |
| Helpers.ToPercentage | src/core/financialEngine/helpers.js:45-47 | 0 for a zero whole; otherwise part × 100 / whole rounded half-up to cents |
| Helpers.SumValues | src/core/financialEngine/helpers.js:54-56 | a sum of non-negative entries is non-negative |
| Helpers.SumValuesAppend | src/core/financialEngine/helpers.js:54-56 | the empty list sums to 0; appending an entry adds its converted value, so a non-numeric entry adds nothing |
| Helpers.SumValuesIsSumOf | src/core/financialEngine/helpers.js:54-56 | `sumValues` is the generic decimal sum of the converted entries |
| Helpers.SumValuesPermutation | src/core/financialEngine/helpers.js:54-56 | any reordering of the list gives the same total |
| OverheadCalculator.OverheadItems | src/core/financialEngine/overheadCalculator.js:46-53 | the overhead total sums exactly 25 line items |
| OverheadCalculator.Read | src/core/financialEngine/overheadCalculator.js:11-43 | trucks, days and hours default to 1, 125 and 8 only when `undefined` (a `null` converts to 0); the salaries and last year's revenue are converted as given; the overhead is the 25-item sum |
| OverheadCalculator.TotalOverheadIsSumOfFields | src/core/financialEngine/overheadCalculator.js:46-53 | the overhead total is the sum of the converted 25 overhead fields, in their listed order |
| OverheadCalculator.TotalOverheadIgnoresOtherFields | src/core/financialEngine/overheadCalculator.js:45-53 | the tech and helper salaries, the operational settings and last year's revenue do not enter the overhead total |
| OverheadCalculator.NullTrucksMeanNoHours | src/core/financialEngine/overheadCalculator.js:39 | a `null` truck count escapes the default, converts to 0, and leaves no billable hours |
| OverheadCalculator.BillableHours | src/core/financialEngine/overheadCalculator.js:56-62 | total billable hours are trucks × the billable hours per truck |
| OverheadCalculator.RevenueTargetIsTwiceOverhead | src/core/financialEngine/overheadCalculator.js:65 | the revenue target (overhead ÷ 0.50) is twice the overhead |
| OverheadCalculator.ZeroBillableHours | src/core/financialEngine/overheadCalculator.js:68-94 | with no billable hours, the overhead rate, yearly gross, per-truck and daily figures are all 0 |
| OverheadCalculator.ZeroTrucksKeepTechRate | src/core/financialEngine/overheadCalculator.js:56-82 | zero trucks give no billable hours, yet the rate keeps the tech add-on: a 1000 salary over 125 × 8 hours gives a rate of 1.00 |
| OverheadCalculator.HelperAddon | src/core/financialEngine/overheadCalculator.js:74-77 | the helper add-on is 0 for a zero salary or no hours per truck, and otherwise the helper salary spread over the billable hours per truck |
| OverheadCalculator.UnroundedRateCoversCosts | src/core/financialEngine/overheadCalculator.js:68-81 | before rounding, the rate × billable hours equals twice the overhead plus one tech and one helper salary per truck |
| OverheadCalculator.FinalRateIsRoundedSum | src/core/financialEngine/overheadCalculator.js:80-82 | the final rate is the overhead rate plus both add-ons, rounded half-up to cents |
| OverheadCalculator.GrossRevenueFromRoundedRate | src/core/financialEngine/overheadCalculator.js:85 | the yearly gross is in cents and is the rounded product of the already rounded final rate and the billable hours |
| OverheadCalculator.PerTruckAndDailyZeroSafe | src/core/financialEngine/overheadCalculator.js:88-94 | zero trucks give per-truck figures of 0; zero working days give a daily total of 0 |
| OverheadCalculator.DailyPerTruckRoundsTwice | src/core/financialEngine/overheadCalculator.js:91-94 | the daily total is rounded before it is divided among the trucks: a gross of 1.00 over 8 days and 2 trucks gives 0.13 per day and 0.07 per truck, where one rounding gives 0.06 |
| OverheadCalculator.OverheadPercent | src/core/financialEngine/overheadCalculator.js:97-100 | 0 without last year's revenue; otherwise overhead × 100 / revenue rounded to cents |
| OverheadCalculator.Report | src/core/financialEngine/overheadCalculator.js:102-116 | the overhead, both hours figures, the revenue target and the overhead, tech and helper rates are each their exact figure rounded half-up to cents; the final rate, yearly gross, per-truck, daily and percent figures are those of the pipeline, already in cents |
| OverheadCalculator.CalculateOverhead | src/core/financialEngine/overheadCalculator.js:10-117 | every one of the 13 returned figures is stated for the figures read from the input: the overhead, hours, target and the three rates as their exact values rounded to cents, the rest as the pipeline's rounded figures |
| OverheadService.Read | src/modules/overhead/overhead.service.js:14-26 | a missing or zero truck count, day count or hour count falls back to 1, 125 or 8, so none of them is ever 0; the tech salary and last year's revenue are the stored amounts with a missing or zero value counting 0 (`\|\| 0`); the overhead is the `OVERHEAD_FIELDS` sum |
| OverheadService.SumOfSameAmounts | src/modules/overhead/overhead.service.js:17-20 | sums over the same keys agree when the amounts agree key by key |
| OverheadService.TotalOverheadReadsOnlyOverheadFields | src/modules/overhead/overhead.service.js:6-20 | two records with the same amounts in the 25 overhead fields have the same overhead total |
| OverheadService.SalariesAreNotOverhead | src/modules/overhead/overhead.service.js:6-13 | neither the tech salary nor the helper salary is one of the overhead fields |
| OverheadService.EmptyRecordHasNoOverhead | src/modules/overhead/overhead.service.js:17-20 | an empty record has an overhead of 0 |
| OverheadService.BillableHoursNeverZero | src/modules/overhead/overhead.service.js:29-32 | the billable hours per truck and in total are never 0, and total = trucks × per truck |
| OverheadService.SameReadFieldsSameResults | src/modules/overhead/overhead.service.js:15-89 | the results depend only on the 25 overhead fields, the three operational settings, the tech salary and last year's revenue |
| OverheadService.HelperSalaryIgnored | src/modules/overhead/overhead.service.js:15-89 | setting, changing or removing the helper salary leaves every result unchanged |
| OverheadService.FinalRateNonNegative | src/modules/overhead/overhead.service.js:50 | a record of non-negative numbers gives a non-negative rate |
| OverheadService.RevenueTargetIsTwiceOverhead | src/modules/overhead/overhead.service.js:35-37 | the revenue target is twice the overhead total |
| OverheadService.EstYearlyGrossCoversOverheadAndTechs | src/modules/overhead/overhead.service.js:40-53 | the exact yearly gross is twice the overhead plus one tech salary per truck |
| OverheadService.PerTruckFiguresMultiplyBack | src/modules/overhead/overhead.service.js:56-68 | the annual per-truck figure × trucks, and the daily per-truck figure × trucks × days, both give back the yearly gross |
| OverheadService.OverheadPct | src/modules/overhead/overhead.service.js:71-73 | 0 without last year's revenue; otherwise the percentage times the revenue is overhead × 100 |
| OverheadService.Results | src/modules/overhead/overhead.service.js:75-88 | each of the 12 returned figures is its exact figure rounded half-up to cents |
| OverheadService.CalculateResults | src/modules/overhead/overhead.service.js:15-89 | each of the 12 returned figures is the exact figure computed from the record (the overhead sum, hours, target, rates, gross, per-truck, daily and percent figures) rounded half-up to cents |
| OverheadVariants.CalculatorTechOnlyFigures | src/core/financialEngine/overheadCalculator.js:11-53 | an input holding only a tech salary reads as no overhead, 1 truck, 125 days and 8 hours |
| OverheadVariants.ServiceTechOnlyFigures | src/modules/overhead/overhead.service.js:17-26 | a record holding only a tech salary reads as no overhead, 1 truck, 125 days and 8 hours |
| OverheadVariants.RoundingOrderDiffers | src/core/financialEngine/overheadCalculator.js:80-85 | on a 1001 tech salary alone both variants report a rate of 1.00, but the calculator reports a gross of 1000.00 and the service 1001.00 |
| OverheadVariants.CalculatorRoundsFirst | src/core/financialEngine/overheadCalculator.js:80-85 | the calculator multiplies the rounded rate 1.00 by 1000 hours |
| OverheadVariants.ServiceRoundsLast | src/modules/overhead/overhead.service.js:50-53 | the service multiplies the exact rate 1.001 by 1000 hours and rounds afterwards |
| OverheadVariants.ZeroTrucksDiffer | src/modules/overhead/overhead.service.js:22 | a stored 0 trucks leaves the calculator with no billable hours, but the service with 1 truck |
| PricingService.HourlyRate | src/modules/pricing/pricing.service.js:10-15 | 0 without an overhead record; otherwise the record's final rate, in cents and in the half-up window of the exact rate |
| PricingService.HourlyRateNonNegative | src/modules/pricing/pricing.service.js:10-15 | a record of non-negative numbers gives a non-negative hourly rate |
| PricingService.PriceService | src/modules/pricing/pricing.service.js:21-52 | identity fields and the override pass through; the rate used is the override whenever one is stored, else the fallback; the markup defaults to 25 only when missing; the cost, hours, material price, labor price, total, gross profit and margin are each the exact figure rounded half-up to cents |
| PricingService.CalculateServicePricing | src/modules/pricing/pricing.service.js:20-53 | one priced entry per service, in the same order |
| PricingService.ZeroOverrideIsUsed | src/modules/pricing/pricing.service.js:25-28 | a stored override of 0 is used, so the labor is free whatever the fallback rate |
| PricingService.ZeroMarkupIsKept | src/modules/pricing/pricing.service.js:23-27 | a stored markup of 0 is kept, so the material sells at cost |
| PricingService.GrossProfitIsMarkupPlusLabor | src/modules/pricing/pricing.service.js:27-30 | the gross profit is the material markup plus the whole labor price |
| PricingService.MarginWithinBounds | src/modules/pricing/pricing.service.js:27-33 | with non-negative inputs and rate, 0 ≤ profit ≤ total and 0 ≤ margin ≤ 100 |
| PricingService.RoundedMarginWithinBounds | src/modules/pricing/pricing.service.js:49-50 | the returned profit is non-negative and the returned margin lies between 0 and 100 |
| PricingService.ExamplePricing | src/modules/pricing/pricing.service.js:27-50 | cost 100, markup 25, 2 hours at 50 give 125 + 100 = 225, a profit of 125 and a margin of 55.56 |
| PricingService.TotalIsNotSumOfRoundedParts | src/modules/pricing/pricing.service.js:46-48 | the total is rounded from the exact sum: material 0.01 plus labor 0.01 can total 0.01 |
| JobCostingService.Quantity | src/modules/jobCosting/jobCosting.service.js:27 | a missing or zero quantity counts as 1, any other quantity as itself, so the quantity is never 0 |
| JobCostingService.CostLineItem | src/modules/jobCosting/jobCosting.service.js:22-59 | identity fields and the override pass through; the quantity is the one used; the rate used and the markup follow the override and 25 defaults; the cost, hours, material, labor and unit prices, line total, cost, profit and margin are each the exact figure rounded half-up to cents; the labor hours the line adds to the job are its rounded hours times its quantity |
| JobCostingService.CalculateLineItems | src/modules/jobCosting/jobCosting.service.js:21-60 | one costed entry per line item, in the same order |
| JobCostingService.UnitPriceIsServicePrice | src/modules/jobCosting/jobCosting.service.js:23-31 | a line item's unit price is the price the pricing matrix gives the same fields |
| JobCostingService.QuantityOneMatchesPricing | src/modules/jobCosting/jobCosting.service.js:29-57 | at quantity 1 the line total, profit and margin equal the pricing matrix's total, profit and margin |
| JobCostingService.MarginIgnoresQuantity | src/modules/jobCosting/jobCosting.service.js:32-37 | the line margin does not depend on the quantity |
| JobCostingService.LineCostWithinTotal | src/modules/jobCosting/jobCosting.service.js:29-55 | with non-negative inputs, 0 ≤ line cost ≤ line total, exactly and after rounding |
| JobCostingService.Accumulate | src/modules/jobCosting/jobCosting.service.js:66-79 | the three running totals are the sums of the line costs, line totals and labor hours × quantity |
| JobCostingService.Totals | src/modules/jobCosting/jobCosting.service.js:81-93 | materials, revenue, profit (revenue − materials) and labor hours are each rounded half-up to cents; the margin is 0 without revenue and otherwise profit ÷ revenue × 100 rounded; the count is passed through |
| JobCostingService.CalculateJobTotals | src/modules/jobCosting/jobCosting.service.js:65-94 | the count is the number of items; each total is the sum of its field over the items rounded half-up to cents; the margin is 0 without revenue and otherwise the summed profit ÷ summed revenue × 100 rounded |
| JobCostingService.EmptyJobTotals | src/modules/jobCosting/jobCosting.service.js:65-94 | a job without line items has all totals 0 and a count of 0 |
| JobCostingService.TotalsIgnoreOrder | src/modules/jobCosting/jobCosting.service.js:65-94 | the job totals do not depend on the order of the line items |
| JobCostingService.TotalsOfCentItems | src/modules/jobCosting/jobCosting.service.js:86-89 | for cent-valued lines the totals are the exact sums, with no further rounding |
| JobCostingService.TotalsOfCentSums | src/modules/jobCosting/jobCosting.service.js:81-89 | cent-valued sums pass through the final rounding unchanged |
| JobCostingService.CalculatedItemsInCents | src/modules/jobCosting/jobCosting.service.js:54-55 | every costed line has its cost and total in cents |
| JobCostingService.TotalsOfCalculatedItems | src/modules/jobCosting/jobCosting.service.js:65-94 | for costed lines, the materials, revenue and profit are the exact sums of the lines' rounded figures |
| JobCostingService.LaborHoursOfCalculatedItems | src/modules/jobCosting/jobCosting.service.js:46-72 | the labor hours summed over the costed lines are the sum, over the line items, of each item's hours rounded to cents times its quantity |
| JobCostingService.TotalLaborHoursOfCalculatedItems | src/modules/jobCosting/jobCosting.service.js:70-90 | the job's returned labor hours are that sum over the line items, rounded half-up to cents |
| JobCostingService.JobMarginWithinBounds | src/modules/jobCosting/jobCosting.service.js:81-91 | with non-negative inputs and rate, the job profit is non-negative and the overall margin lies between 0 and 100 |
| JobCostingService.SumsWithinBounds | src/modules/jobCosting/jobCosting.service.js:81-91 | if 0 ≤ materials ≤ revenue, the profit is non-negative and the margin lies between 0 and 100 |
| JobCostingService.ExampleLineItem | src/modules/jobCosting/jobCosting.service.js:29-34 | 3 units of a 225 service sell for 675, cost 300 and earn 375 |
| JobCostingService.ExampleJobTotals | src/modules/jobCosting/jobCosting.service.js:65-94 | lines of 1 and 3 units of that service total 900 revenue, 500 profit and a 55.56 margin |
| JobCostingService.ProfitIsNotSumOfLineProfits | src/modules/jobCosting/jobCosting.service.js:81 | the job profit is revenue − materials of the rounded lines, so it can exceed the sum of the rounded line profits: one line with profit 0 (`SumOf` of `LineProfitOf`) makes a job profit of 0.01 |
| JobCostingService.JobRevenueRoundsTwice | src/modules/jobCosting/jobCosting.service.js:66-90 | two lines of exactly 0.005 each are rounded to 0.01 apiece, so the job revenue is 0.02, where rounding the exact job revenue 0.01 once gives 0.01 |

## Left out

- Persistence and the asynchronous service functions are not modelled: saving, reading, creating, updating and deleting overhead records, pricing matrices and jobs. Their pure results are parameters instead. `getHourlyRate` becomes `HourlyRate` over an optional record, and `fallbackRate` is a parameter.
- Controllers, routes, authentication, error classes and the client components are outside the engine and are not modelled.
- The Joi and Mongoose schemas are not modelled as code. Where a lemma needs what validation guarantees, it states that as a precondition: `ValidService`, `ValidLineItem`, or a record of non-negative numbers.
- decimal.js's 20-significant-digit precision is not modelled: every operation (plus, minus, times and division) is exact. decimal.js rounds each intermediate result to 20 significant digits, so a figure whose exact value needs more digits, such as 1/3, can differ from the model beyond the 20th digit, and in a tie case its cent rounding can differ.
- String and number formatting (`toFixed(2)` strings, `toNumber()`) is modelled as the rounded value it shows. The textual form is not modelled.
- Infinity is not a modelled value. NaN, `null`, `undefined` and unparseable values are modelled, and numeric strings are modelled as the number they parse to.
- In a stored record or item, a missing key and a `null` are one case (`None`), because every operator the code applies (`||`, `??`) treats them alike. The returned `hourly_rate_override` passes the stored field through, so the code keeps a `null` override apart from a missing one (pricing.service.js:43, jobCosting.service.js:47); the model returns `None` for both. No figure depends on the difference.
- `getHourlyRate` exists twice, word for word, in pricing.service.js and in jobCosting.service.js; both copies are modelled once, as `PricingService.HourlyRate`.
- The `|| 0` after the overhead rate in `getHourlyRate` is modelled, but it changes no value: a 0 rate stays 0.
- `category` and the identity fields are opaque strings that pass through; their enumeration belongs to validation.
- The two overhead variants are kept apart, as the code has them. The calculator rounds the rate before computing the yearly gross, and the service rounds at the end. The calculator keeps a stored 0 or `null` truck count, and the service replaces it by 1. `OverheadVariants` states these differences instead of unifying them.
- Margins are rounded to two decimals, as the code does; the hourly rate used for labor is the unrounded override or fallback, as the code uses it.
