/**
 * The overhead service's own calculation (`calculateResults`), the one the
 * pricing and job-costing services call for the hourly rate. Unlike the
 * overhead calculator it has no helper-salary add-on, it replaces a zero or
 * missing operational setting by its default (`||`), and it keeps every
 * figure exact until the returned values are rounded to cents.
 */
module OverheadService {
  import opened Js
  import opened Decimal

  /** The numeric fields of a stored overhead record, named after their snake_case keys. */
  datatype Key =
    | OwnerSalary | OfficeStaff1 | OfficeStaff2 | OfficeStaff3
    | Fuel | VehicleMaintenance | Truck1 | Truck2 | Truck3
    | LoanPayments | WorkersComp | LiabilityInsurance
    | MerchantFees | ShopRent | Cellular | Accounting
    | SoftwareSubs | Marketing | Training | Uniforms
    | Tools | PayrollProcessing | AutoInsurance | Licenses | Misc
    | HighestTechSalary | HelperSalary
    | NumTrucks | WorkingDaysPerYear | AvgHoursPerDay
    | TotalRevenueLastYear

  /**
   * A stored overhead record as a plain object: a key that is absent stands
   * for a field that is missing or null, which `||` treats alike.
   */
  type OverheadRecord = map<Key, real>

  /** `OVERHEAD_FIELDS`: the 25 line items that sum into total annual overhead. */
  const OVERHEAD_FIELDS: seq<Key> := [
    OwnerSalary, OfficeStaff1, OfficeStaff2, OfficeStaff3,
    Fuel, VehicleMaintenance, Truck1, Truck2, Truck3,
    LoanPayments, WorkersComp, LiabilityInsurance,
    MerchantFees, ShopRent, Cellular, Accounting,
    SoftwareSubs, Marketing, Training, Uniforms,
    Tools, PayrollProcessing, AutoInsurance, Licenses, Misc]

  /** The returned figures, each rounded to two decimal places. */
  datatype OverheadResults = OverheadResults(
    totalAnnualOverhead: real, totalBillableHours: real, billableHoursPerTruck: real,
    revenueTarget: real, overheadHourlyRate: real, techHourlyAddon: real,
    finalBillableHourlyRate: real, estYearlyGross: real,
    annualPerTruck: real, dailyRevenueTotal: real, dailyRevenuePerTruck: real,
    overheadPctOfRevenue: real)

  /** `inputs[key]`. */
  function Field(inputs: OverheadRecord, key: Key): Option<real> {
    if key in inputs then Some(inputs[key]) else None
  }

  /** `inputs[field] || 0`: a missing field counts as 0. */
  function Amount(inputs: OverheadRecord, key: Key): real {
    Or(Field(inputs, key), 0.0)
  }

  /**
   * The six figures `calculateResults` reads from the record, after its
   * `|| 0` and `|| default` substitutions.
   */
  datatype Figures = Figures(
    overhead: real, trucks: real, days: real, hours: real,
    techSalary: real, revenueLastYear: real)

  function Read(inputs: OverheadRecord): (f: Figures)
    ensures f.trucks != 0.0 && f.days != 0.0 && f.hours != 0.0
    ensures f.trucks == if NumTrucks in inputs && inputs[NumTrucks] != 0.0 then inputs[NumTrucks] else 1.0
    ensures f.days == if WorkingDaysPerYear in inputs && inputs[WorkingDaysPerYear] != 0.0 then inputs[WorkingDaysPerYear] else 125.0
    ensures f.hours == if AvgHoursPerDay in inputs && inputs[AvgHoursPerDay] != 0.0 then inputs[AvgHoursPerDay] else 8.0
    ensures f.overhead == TotalAnnualOverhead(inputs)
    ensures f.techSalary == Amount(inputs, HighestTechSalary)
    ensures f.revenueLastYear == Amount(inputs, TotalRevenueLastYear)
  {
    Figures(
      overhead := TotalAnnualOverhead(inputs),
      trucks := Or(Field(inputs, NumTrucks), 1.0),
      days := Or(Field(inputs, WorkingDaysPerYear), 125.0),
      hours := Or(Field(inputs, AvgHoursPerDay), 8.0),
      techSalary := Amount(inputs, HighestTechSalary),
      revenueLastYear := Amount(inputs, TotalRevenueLastYear))
  }

  /** The sum over `OVERHEAD_FIELDS`, a missing field counting 0. */
  function TotalAnnualOverhead(inputs: OverheadRecord): real {
    SumOf(OVERHEAD_FIELDS, (key: Key) => Amount(inputs, key))
  }

  // The remaining `const`s of `calculateResults`, in the order it computes them, as functions of the figures.

  function TotalBillableHours(f: Figures): real {
    f.trucks * f.days * f.hours
  }

  function BillableHoursPerTruck(f: Figures): real {
    f.days * f.hours
  }

  function RevenueTarget(f: Figures): real {
    if TotalBillableHours(f) == 0.0 then 0.0 else f.overhead / 0.5
  }

  function OverheadHourlyRate(f: Figures): real {
    if TotalBillableHours(f) == 0.0 then 0.0 else RevenueTarget(f) / TotalBillableHours(f)
  }

  function TechHourlyAddon(f: Figures): real {
    if BillableHoursPerTruck(f) == 0.0 then 0.0 else f.techSalary / BillableHoursPerTruck(f)
  }

  /** The hourly rate, not rounded before it is used below. */
  function FinalBillableHourlyRate(f: Figures): real {
    OverheadHourlyRate(f) + TechHourlyAddon(f)
  }

  function EstYearlyGross(f: Figures): real {
    FinalBillableHourlyRate(f) * TotalBillableHours(f)
  }

  function AnnualPerTruck(f: Figures): real {
    if f.trucks == 0.0 then 0.0 else EstYearlyGross(f) / f.trucks
  }

  function DailyRevenueTotal(f: Figures): real {
    if f.days == 0.0 then 0.0 else EstYearlyGross(f) / f.days
  }

  function DailyRevenuePerTruck(f: Figures): real {
    if f.trucks == 0.0 then 0.0 else DailyRevenueTotal(f) / f.trucks
  }

  function OverheadPctOfRevenue(f: Figures): real {
    if f.revenueLastYear == 0.0 then 0.0 else f.overhead / f.revenueLastYear * 100.0
  }

  /** The returned object: every figure rounded half-up to cents. */
  function Results(f: Figures): (r: OverheadResults)
    ensures RoundsTo(f.overhead, r.totalAnnualOverhead)
    ensures RoundsTo(TotalBillableHours(f), r.totalBillableHours)
    ensures RoundsTo(BillableHoursPerTruck(f), r.billableHoursPerTruck)
    ensures RoundsTo(RevenueTarget(f), r.revenueTarget)
    ensures RoundsTo(OverheadHourlyRate(f), r.overheadHourlyRate)
    ensures RoundsTo(TechHourlyAddon(f), r.techHourlyAddon)
    ensures RoundsTo(FinalBillableHourlyRate(f), r.finalBillableHourlyRate)
    ensures RoundsTo(EstYearlyGross(f), r.estYearlyGross)
    ensures RoundsTo(AnnualPerTruck(f), r.annualPerTruck)
    ensures RoundsTo(DailyRevenueTotal(f), r.dailyRevenueTotal)
    ensures RoundsTo(DailyRevenuePerTruck(f), r.dailyRevenuePerTruck)
    ensures RoundsTo(OverheadPctOfRevenue(f), r.overheadPctOfRevenue)
  {
    OverheadResults(
      totalAnnualOverhead := RoundHalfUp2(f.overhead),
      totalBillableHours := RoundHalfUp2(TotalBillableHours(f)),
      billableHoursPerTruck := RoundHalfUp2(BillableHoursPerTruck(f)),
      revenueTarget := RoundHalfUp2(RevenueTarget(f)),
      overheadHourlyRate := RoundHalfUp2(OverheadHourlyRate(f)),
      techHourlyAddon := RoundHalfUp2(TechHourlyAddon(f)),
      finalBillableHourlyRate := RoundHalfUp2(FinalBillableHourlyRate(f)),
      estYearlyGross := RoundHalfUp2(EstYearlyGross(f)),
      annualPerTruck := RoundHalfUp2(AnnualPerTruck(f)),
      dailyRevenueTotal := RoundHalfUp2(DailyRevenueTotal(f)),
      dailyRevenuePerTruck := RoundHalfUp2(DailyRevenuePerTruck(f)),
      overheadPctOfRevenue := RoundHalfUp2(OverheadPctOfRevenue(f)))
  }

  /** `calculateResults(inputs)`: read the figures, compute, round on the way out. */
  function CalculateResults(inputs: OverheadRecord): (r: OverheadResults)
    ensures RoundsTo(TotalAnnualOverhead(inputs), r.totalAnnualOverhead)
    ensures RoundsTo(TotalBillableHours(Read(inputs)), r.totalBillableHours)
    ensures RoundsTo(BillableHoursPerTruck(Read(inputs)), r.billableHoursPerTruck)
    ensures RoundsTo(RevenueTarget(Read(inputs)), r.revenueTarget)
    ensures RoundsTo(OverheadHourlyRate(Read(inputs)), r.overheadHourlyRate)
    ensures RoundsTo(TechHourlyAddon(Read(inputs)), r.techHourlyAddon)
    ensures RoundsTo(FinalBillableHourlyRate(Read(inputs)), r.finalBillableHourlyRate)
    ensures RoundsTo(EstYearlyGross(Read(inputs)), r.estYearlyGross)
    ensures RoundsTo(AnnualPerTruck(Read(inputs)), r.annualPerTruck)
    ensures RoundsTo(DailyRevenueTotal(Read(inputs)), r.dailyRevenueTotal)
    ensures RoundsTo(DailyRevenuePerTruck(Read(inputs)), r.dailyRevenuePerTruck)
    ensures RoundsTo(OverheadPctOfRevenue(Read(inputs)), r.overheadPctOfRevenue)
  {
    Results(Read(inputs))
  }

  /** Two sums over the same keys agree when the figures they take from each key agree. */
  lemma {:induction false} SumOfSameAmounts(keys: seq<Key>, f: Key -> real, g: Key -> real)
    requires forall k :: k in keys ==> f(k) == g(k)
    ensures SumOf(keys, f) == SumOf(keys, g)
  {
    if keys != [] {
      SumOfSameAmounts(keys[..|keys| - 1], f, g);
    }
  }

  /** The overhead total reads only the 25 overhead fields, a missing one counting 0. */
  lemma TotalOverheadReadsOnlyOverheadFields(a: OverheadRecord, b: OverheadRecord)
    requires forall k :: k in OVERHEAD_FIELDS ==> Amount(a, k) == Amount(b, k)
    ensures TotalAnnualOverhead(a) == TotalAnnualOverhead(b)
  {
    SumOfSameAmounts(OVERHEAD_FIELDS, (key: Key) => Amount(a, key), (key: Key) => Amount(b, key));
  }

  /** Neither salary is an overhead line item. */
  lemma SalariesAreNotOverhead()
    ensures HighestTechSalary !in OVERHEAD_FIELDS && HelperSalary !in OVERHEAD_FIELDS
  {
  }

  /** A record with no fields at all has no overhead. */
  lemma EmptyRecordHasNoOverhead()
    ensures TotalAnnualOverhead(map[]) == 0.0
  {
    SumOfSameAmounts(OVERHEAD_FIELDS, (key: Key) => Amount(map[], key), (key: Key) => 0.0);
    ZeroSum(OVERHEAD_FIELDS);
  }

  lemma {:induction false} ZeroSum(keys: seq<Key>)
    ensures SumOf(keys, (key: Key) => 0.0) == 0.0
  {
    if keys != [] {
      ZeroSum(keys[..|keys| - 1]);
    }
  }

  /** Billable hours are never 0, so the zero guards on them never fire. */
  lemma BillableHoursNeverZero(inputs: OverheadRecord)
    ensures BillableHoursPerTruck(Read(inputs)) != 0.0
    ensures TotalBillableHours(Read(inputs)) == Read(inputs).trucks * BillableHoursPerTruck(Read(inputs)) != 0.0
  {
    var f := Read(inputs);
    ProductNonZero(f.days, f.hours);
    ProductNonZero(f.trucks, f.days * f.hours);
  }

  /**
   * Two records that agree on every field the calculation reads give the
   * same results.
   */
  lemma SameReadFieldsSameResults(a: OverheadRecord, b: OverheadRecord)
    requires forall k :: k in OVERHEAD_FIELDS ==> Amount(a, k) == Amount(b, k)
    requires Field(a, NumTrucks) == Field(b, NumTrucks)
    requires Field(a, WorkingDaysPerYear) == Field(b, WorkingDaysPerYear)
    requires Field(a, AvgHoursPerDay) == Field(b, AvgHoursPerDay)
    requires Field(a, HighestTechSalary) == Field(b, HighestTechSalary)
    requires Field(a, TotalRevenueLastYear) == Field(b, TotalRevenueLastYear)
    ensures CalculateResults(a) == CalculateResults(b)
  {
    TotalOverheadReadsOnlyOverheadFields(a, b);
    assert Read(a) == Read(b);
  }

  /** The helper salary is never read: changing or dropping it changes no result. */
  lemma HelperSalaryIgnored(inputs: OverheadRecord, salary: real)
    ensures CalculateResults(inputs[HelperSalary := salary]) == CalculateResults(inputs)
    ensures CalculateResults(inputs - {HelperSalary}) == CalculateResults(inputs)
  {
    SalariesAreNotOverhead();
    var changed, dropped := inputs[HelperSalary := salary], inputs - {HelperSalary};
    forall k | k in OVERHEAD_FIELDS
      ensures Amount(changed, k) == Amount(inputs, k) == Amount(dropped, k)
    {
      assert Field(changed, k) == Field(inputs, k) == Field(dropped, k);
    }
    SameReadFieldsSameResults(changed, inputs);
    SameReadFieldsSameResults(dropped, inputs);
  }

  /**
   * A record whose numbers are all non-negative, as validation demands,
   * gives a non-negative hourly rate.
   */
  lemma FinalRateNonNegative(inputs: OverheadRecord)
    requires forall k :: k in inputs ==> inputs[k] >= 0.0
    ensures FinalBillableHourlyRate(Read(inputs)) >= 0.0
  {
    var f := Read(inputs);
    assert forall i :: 0 <= i < |OVERHEAD_FIELDS| ==> Amount(inputs, OVERHEAD_FIELDS[i]) >= 0.0;
    assert f.overhead >= 0.0 && f.techSalary >= 0.0;
    assert f.trucks > 0.0 && f.days > 0.0 && f.hours > 0.0;
    assert BillableHoursPerTruck(f) > 0.0;
    assert TotalBillableHours(f) > 0.0;
  }

  /** The revenue target is twice the overhead. */
  lemma RevenueTargetIsTwiceOverhead(inputs: OverheadRecord)
    ensures RevenueTarget(Read(inputs)) == 2.0 * TotalAnnualOverhead(inputs)
  {
    BillableHoursNeverZero(inputs);
  }

  /**
   * In exact arithmetic the yearly gross is the revenue target plus one
   * technician salary per truck.
   */
  lemma EstYearlyGrossCoversOverheadAndTechs(inputs: OverheadRecord)
    ensures EstYearlyGross(Read(inputs)) ==
      2.0 * TotalAnnualOverhead(inputs) + Read(inputs).trucks * Read(inputs).techSalary
  {
    BillableHoursNeverZero(inputs);
    var f := Read(inputs);
    var n, b, t := f.trucks, BillableHoursPerTruck(f), TotalBillableHours(f);
    var o, a := OverheadHourlyRate(f), TechHourlyAddon(f);
    DivideThenMultiply(RevenueTarget(f), t);
    DivideThenMultiply(f.techSalary, b);
    calc {
      EstYearlyGross(f);
      (o + a) * t;
      o * t + a * (n * b);
      { assert a * (n * b) == n * (a * b); }
      2.0 * f.overhead + n * f.techSalary;
    }
  }

  /** In exact arithmetic the per-truck and per-day figures multiply back to the yearly gross. */
  lemma PerTruckFiguresMultiplyBack(inputs: OverheadRecord)
    ensures AnnualPerTruck(Read(inputs)) * Read(inputs).trucks == EstYearlyGross(Read(inputs))
    ensures DailyRevenuePerTruck(Read(inputs)) * Read(inputs).trucks * Read(inputs).days == EstYearlyGross(Read(inputs))
  {
    var f := Read(inputs);
    var n, w, g := f.trucks, f.days, EstYearlyGross(f);
    var daily, perTruck := DailyRevenueTotal(f), DailyRevenuePerTruck(f);
    DivideThenMultiply(g, n);
    DivideThenMultiply(g, w);
    DivideThenMultiply(daily, n);
    assert perTruck * n * w == daily * w;
  }

  /** 0 without last year's revenue, else the overhead as a percentage of it. */
  lemma OverheadPct(inputs: OverheadRecord)
    ensures Amount(inputs, TotalRevenueLastYear) == 0.0 ==> OverheadPctOfRevenue(Read(inputs)) == 0.0
    ensures Amount(inputs, TotalRevenueLastYear) != 0.0 ==>
      OverheadPctOfRevenue(Read(inputs)) * Amount(inputs, TotalRevenueLastYear) == TotalAnnualOverhead(inputs) * 100.0
  {
  }
}
