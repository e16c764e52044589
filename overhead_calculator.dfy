/**
 * The overhead calculator of the financial engine (`calculateOverhead`): a
 * thirteen-step pipeline from annual costs and operational settings to the
 * billable hourly rate and the revenue figures derived from it. This variant
 * includes a helper-salary add-on and rounds the hourly rate to cents before
 * it derives the revenue figures from it.
 */
module OverheadCalculator {
  import opened Js
  import opened Decimal
  import opened Helpers

  /**
   * The input object. Every property is a raw value; `Undefined` stands for
   * a property that is absent, the only case its destructuring default
   * replaces.
   */
  datatype OverheadInputs = OverheadInputs(
    ownerSalary: Value, officeStaff1: Value, officeStaff2: Value, officeStaff3: Value,
    fuel: Value, vehicleMaintenance: Value, truck1: Value, truck2: Value, truck3: Value,
    loanPayments: Value, workersComp: Value, liabilityInsurance: Value,
    merchantFees: Value, shopRent: Value, cellular: Value, accounting: Value,
    softwareSubs: Value, marketing: Value, training: Value, uniforms: Value,
    tools: Value, payrollProcessing: Value, autoInsurance: Value, licenses: Value, misc: Value,
    highestTechSalary: Value, helperSalary: Value,
    numTrucks: Value, workingDaysPerYear: Value, avgHoursPerDay: Value,
    totalRevenueLastYear: Value)

  /** The returned object; each figure is a two-decimal string, held here as its value. */
  datatype OverheadReport = OverheadReport(
    totalAnnualOverhead: real, totalBillableHours: real, revenueTarget: real,
    overheadHourlyRate: real, techHourlyAddon: real, helperHourlyAddon: real,
    finalBillableHourlyRate: real, estYearlyGrossRevenue: real,
    annualPerTruck: real, dailyRevenueTotal: real, dailyRevenuePerTruck: real,
    overheadPercentOfLastYear: real, billableHoursPerTruck: real)

  /** A property after its destructuring default of 0, which coerces to the same decimal. */
  function Cost(v: Value): (r: Value)
    ensures ToDecimal(r) == ToDecimal(v)
  {
    WithDefault(v, Num(0.0))
  }

  /** The 25 overhead line items, in the order `calculateOverhead` sums them. */
  function OverheadItems(i: OverheadInputs): (items: seq<Value>)
    ensures |items| == 25
  {
    [ Cost(i.ownerSalary), Cost(i.officeStaff1), Cost(i.officeStaff2), Cost(i.officeStaff3),
      Cost(i.fuel), Cost(i.vehicleMaintenance), Cost(i.truck1), Cost(i.truck2), Cost(i.truck3),
      Cost(i.loanPayments), Cost(i.workersComp), Cost(i.liabilityInsurance),
      Cost(i.merchantFees), Cost(i.shopRent), Cost(i.cellular), Cost(i.accounting),
      Cost(i.softwareSubs), Cost(i.marketing), Cost(i.training), Cost(i.uniforms),
      Cost(i.tools), Cost(i.payrollProcessing), Cost(i.autoInsurance), Cost(i.licenses), Cost(i.misc) ]
  }

  /** Step 1: total annual overhead. */
  function TotalAnnualOverhead(i: OverheadInputs): real {
    SumValues(OverheadItems(i))
  }

  /**
   * The figures the pipeline reads from its input after destructuring:
   * the overhead total, the operational settings (defaulted only when
   * absent) and the salaries and revenue (defaulted to 0), each coerced.
   */
  datatype Figures = Figures(
    overhead: real, trucks: real, days: real, hours: real,
    techSalary: real, helperSalary: real, revenueLastYear: real)

  function Read(i: OverheadInputs): (f: Figures)
    ensures f.overhead == TotalAnnualOverhead(i)
    ensures f.trucks == if i.numTrucks.Undefined? then 1.0 else ToDecimal(i.numTrucks)
    ensures f.days == if i.workingDaysPerYear.Undefined? then 125.0 else ToDecimal(i.workingDaysPerYear)
    ensures f.hours == if i.avgHoursPerDay.Undefined? then 8.0 else ToDecimal(i.avgHoursPerDay)
    ensures f.techSalary == ToDecimal(i.highestTechSalary) && f.helperSalary == ToDecimal(i.helperSalary)
    ensures f.revenueLastYear == ToDecimal(i.totalRevenueLastYear)
  {
    Figures(
      overhead := TotalAnnualOverhead(i),
      trucks := ToDecimal(WithDefault(i.numTrucks, Num(1.0))),
      days := ToDecimal(WithDefault(i.workingDaysPerYear, Num(125.0))),
      hours := ToDecimal(WithDefault(i.avgHoursPerDay, Num(8.0))),
      techSalary := ToDecimal(Cost(i.highestTechSalary)),
      helperSalary := ToDecimal(Cost(i.helperSalary)),
      revenueLastYear := ToDecimal(Cost(i.totalRevenueLastYear)))
  }

  // Steps 2 to 13 of `calculateOverhead`, each `const` as a function of the figures, in its order.

  /** Step 2: billable hours of the whole fleet. */
  function TotalBillableHours(f: Figures): real {
    f.trucks * f.days * f.hours
  }

  /** Billable hours of one truck. */
  function BillableHoursPerTruck(f: Figures): real {
    f.days * f.hours
  }

  /** Revenue target: the overhead at a 50% margin. */
  function RevenueTarget(f: Figures): real {
    SafeDivide(Num(f.overhead), Num(0.5))
  }

  function OverheadHourlyRate(f: Figures): real {
    SafeDivide(Num(RevenueTarget(f)), Num(TotalBillableHours(f)))
  }

  function TechHourlyAddon(f: Figures): real {
    SafeDivide(Num(f.techSalary), Num(BillableHoursPerTruck(f)))
  }

  /** The helper add-on is skipped outright when there is no helper salary. */
  function HelperHourlyAddon(f: Figures): real {
    if f.helperSalary == 0.0 then ToDecimal(Num(0.0))
    else SafeDivide(Num(f.helperSalary), Num(BillableHoursPerTruck(f)))
  }

  /** The hourly rate, rounded to cents before anything else uses it. */
  function FinalBillableHourlyRate(f: Figures): real {
    RoundToCents(Num(OverheadHourlyRate(f) + TechHourlyAddon(f) + HelperHourlyAddon(f)))
  }

  /** The rounded rate times the fleet's hours, before the yearly gross is rounded. */
  function RateTimesHours(f: Figures): real {
    FinalBillableHourlyRate(f) * TotalBillableHours(f)
  }

  function EstYearlyGrossRevenue(f: Figures): real {
    RoundToCents(Num(RateTimesHours(f)))
  }

  function AnnualPerTruck(f: Figures): real {
    RoundToCents(Num(SafeDivide(Num(EstYearlyGrossRevenue(f)), Num(f.trucks))))
  }

  function DailyRevenueTotal(f: Figures): real {
    RoundToCents(Num(SafeDivide(Num(EstYearlyGrossRevenue(f)), Num(f.days))))
  }

  function DailyRevenuePerTruck(f: Figures): real {
    RoundToCents(Num(SafeDivide(Num(DailyRevenueTotal(f)), Num(f.trucks))))
  }

  /** Step 13: overhead as a percentage of last year's revenue. */
  function OverheadPercentOfLastYear(f: Figures): real {
    if f.revenueLastYear == 0.0 then ToDecimal(Num(0.0))
    else ToPercentage(Num(f.overhead), Num(f.revenueLastYear))
  }

  /** `toFixed(2)`, under the default rounding mode. */
  function Fixed2(x: real): real {
    RoundHalfUp2(x)
  }

  /**
   * The returned object: every figure is serialised with two decimals. The
   * overhead, the target and the three rates are rounded to cents, which
   * the serialisation keeps; the hours are rounded by the serialisation
   * alone; the figures the pipeline already rounded come out unchanged.
   */
  function Report(f: Figures): (r: OverheadReport)
    ensures RoundsTo(f.overhead, r.totalAnnualOverhead)
    ensures RoundsTo(TotalBillableHours(f), r.totalBillableHours)
    ensures RoundsTo(BillableHoursPerTruck(f), r.billableHoursPerTruck)
    ensures RoundsTo(RevenueTarget(f), r.revenueTarget)
    ensures RoundsTo(OverheadHourlyRate(f), r.overheadHourlyRate)
    ensures RoundsTo(TechHourlyAddon(f), r.techHourlyAddon)
    ensures RoundsTo(HelperHourlyAddon(f), r.helperHourlyAddon)
    ensures r.finalBillableHourlyRate == FinalBillableHourlyRate(f)
    ensures r.estYearlyGrossRevenue == EstYearlyGrossRevenue(f)
    ensures r.annualPerTruck == AnnualPerTruck(f)
    ensures r.dailyRevenueTotal == DailyRevenueTotal(f)
    ensures r.dailyRevenuePerTruck == DailyRevenuePerTruck(f)
    ensures r.overheadPercentOfLastYear == OverheadPercentOfLastYear(f)
  {
    RoundHalfUp2OfCents(RoundHalfUp2(f.overhead));
    RoundHalfUp2OfCents(RoundHalfUp2(RevenueTarget(f)));
    RoundHalfUp2OfCents(RoundHalfUp2(OverheadHourlyRate(f)));
    RoundHalfUp2OfCents(RoundHalfUp2(TechHourlyAddon(f)));
    RoundHalfUp2OfCents(RoundHalfUp2(HelperHourlyAddon(f)));
    RoundHalfUp2OfCents(FinalBillableHourlyRate(f));
    RoundHalfUp2OfCents(EstYearlyGrossRevenue(f));
    RoundHalfUp2OfCents(AnnualPerTruck(f));
    RoundHalfUp2OfCents(DailyRevenueTotal(f));
    RoundHalfUp2OfCents(DailyRevenuePerTruck(f));
    assert IsCents(OverheadPercentOfLastYear(f)) by {
      if f.revenueLastYear == 0.0 { Hundredths(0); }
    }
    RoundHalfUp2OfCents(OverheadPercentOfLastYear(f));
    OverheadReport(
      totalAnnualOverhead := Fixed2(RoundToCents(Num(f.overhead))),
      totalBillableHours := Fixed2(TotalBillableHours(f)),
      revenueTarget := Fixed2(RoundToCents(Num(RevenueTarget(f)))),
      overheadHourlyRate := Fixed2(RoundToCents(Num(OverheadHourlyRate(f)))),
      techHourlyAddon := Fixed2(RoundToCents(Num(TechHourlyAddon(f)))),
      helperHourlyAddon := Fixed2(RoundToCents(Num(HelperHourlyAddon(f)))),
      finalBillableHourlyRate := Fixed2(FinalBillableHourlyRate(f)),
      estYearlyGrossRevenue := Fixed2(EstYearlyGrossRevenue(f)),
      annualPerTruck := Fixed2(AnnualPerTruck(f)),
      dailyRevenueTotal := Fixed2(DailyRevenueTotal(f)),
      dailyRevenuePerTruck := Fixed2(DailyRevenuePerTruck(f)),
      overheadPercentOfLastYear := Fixed2(OverheadPercentOfLastYear(f)),
      billableHoursPerTruck := Fixed2(BillableHoursPerTruck(f)))
  }

  /** `calculateOverhead(inputs)`: read the figures, run the pipeline, serialise. */
  function CalculateOverhead(i: OverheadInputs): (r: OverheadReport)
    ensures RoundsTo(TotalAnnualOverhead(i), r.totalAnnualOverhead)
    ensures RoundsTo(TotalBillableHours(Read(i)), r.totalBillableHours)
    ensures RoundsTo(BillableHoursPerTruck(Read(i)), r.billableHoursPerTruck)
    ensures RoundsTo(RevenueTarget(Read(i)), r.revenueTarget)
    ensures RoundsTo(OverheadHourlyRate(Read(i)), r.overheadHourlyRate)
    ensures RoundsTo(TechHourlyAddon(Read(i)), r.techHourlyAddon)
    ensures RoundsTo(HelperHourlyAddon(Read(i)), r.helperHourlyAddon)
    ensures r.finalBillableHourlyRate == FinalBillableHourlyRate(Read(i))
    ensures r.estYearlyGrossRevenue == EstYearlyGrossRevenue(Read(i))
    ensures r.annualPerTruck == AnnualPerTruck(Read(i))
    ensures r.dailyRevenueTotal == DailyRevenueTotal(Read(i))
    ensures r.dailyRevenuePerTruck == DailyRevenuePerTruck(Read(i))
    ensures r.overheadPercentOfLastYear == OverheadPercentOfLastYear(Read(i))
  {
    Report(Read(i))
  }

  /**
   * Step 1 adds the 25 overhead fields (an absent or non-numeric one counts
   * 0) and nothing else.
   */
  lemma TotalOverheadIsSumOfFields(i: OverheadInputs)
    ensures TotalAnnualOverhead(i) ==
      ToDecimal(i.ownerSalary) + ToDecimal(i.officeStaff1) + ToDecimal(i.officeStaff2) + ToDecimal(i.officeStaff3)
      + ToDecimal(i.fuel) + ToDecimal(i.vehicleMaintenance) + ToDecimal(i.truck1) + ToDecimal(i.truck2) + ToDecimal(i.truck3)
      + ToDecimal(i.loanPayments) + ToDecimal(i.workersComp) + ToDecimal(i.liabilityInsurance)
      + ToDecimal(i.merchantFees) + ToDecimal(i.shopRent) + ToDecimal(i.cellular) + ToDecimal(i.accounting)
      + ToDecimal(i.softwareSubs) + ToDecimal(i.marketing) + ToDecimal(i.training) + ToDecimal(i.uniforms)
      + ToDecimal(i.tools) + ToDecimal(i.payrollProcessing) + ToDecimal(i.autoInsurance) + ToDecimal(i.licenses)
      + ToDecimal(i.misc)
  {
    var s := OverheadItems(i);
    assert s[..0] == [];
    SumValuesStep(s, 0);
    SumValuesStep(s, 1);
    SumValuesStep(s, 2);
    SumValuesStep(s, 3);
    SumValuesStep(s, 4);
    SumValuesStep(s, 5);
    SumValuesStep(s, 6);
    SumValuesStep(s, 7);
    SumValuesStep(s, 8);
    SumValuesStep(s, 9);
    SumValuesStep(s, 10);
    SumValuesStep(s, 11);
    SumValuesStep(s, 12);
    SumValuesStep(s, 13);
    SumValuesStep(s, 14);
    SumValuesStep(s, 15);
    SumValuesStep(s, 16);
    SumValuesStep(s, 17);
    SumValuesStep(s, 18);
    SumValuesStep(s, 19);
    SumValuesStep(s, 20);
    SumValuesStep(s, 21);
    SumValuesStep(s, 22);
    SumValuesStep(s, 23);
    SumValuesStep(s, 24);
    assert s[..25] == s;
    assert TotalAnnualOverhead(i) == SumValues(s);
  }

  /** A null number of trucks is not absent: it coerces to 0 and leaves no billable hours. */
  lemma NullTrucksMeanNoHours(i: OverheadInputs)
    requires i.numTrucks.Null?
    ensures Read(i).trucks == 0.0 && TotalBillableHours(Read(i)) == 0.0
  {
  }

  /** Fleet hours are trucks times the hours of one truck. */
  lemma BillableHours(f: Figures)
    ensures TotalBillableHours(f) == f.trucks * BillableHoursPerTruck(f)
  {
  }

  /** The revenue target is twice the overhead, with no zero-hours guard. */
  lemma RevenueTargetIsTwiceOverhead(f: Figures)
    ensures RevenueTarget(f) == 2.0 * f.overhead
  {
  }

  /**
   * With no billable hours the overhead rate and every revenue figure are 0,
   * and nothing divides by zero.
   */
  lemma ZeroBillableHours(f: Figures)
    requires TotalBillableHours(f) == 0.0
    ensures OverheadHourlyRate(f) == 0.0
    ensures EstYearlyGrossRevenue(f) == 0.0
    ensures AnnualPerTruck(f) == 0.0 && DailyRevenueTotal(f) == 0.0 && DailyRevenuePerTruck(f) == 0.0
  {
    var zero := RoundToCents(Num(0.0));
    assert zero == 0.0 by { Hundredths(0); RoundHalfUp2OfCents(0.0); }
    assert RateTimesHours(f) == 0.0;
    assert EstYearlyGrossRevenue(f) == zero;
    assert SafeDivide(Num(0.0), Num(f.trucks)) == 0.0;
    assert SafeDivide(Num(0.0), Num(f.days)) == 0.0;
  }

  /**
   * Zero trucks zero the fleet hours but not the hours of one truck: the
   * technician add-on still gives a non-zero final rate (here 1000 / 1000).
   */
  lemma ZeroTrucksKeepTechRate(i: OverheadInputs)
    requires i.numTrucks == Num(0.0) && i.workingDaysPerYear.Undefined? && i.avgHoursPerDay.Undefined?
    requires i.highestTechSalary == Num(1000.0) && i.helperSalary.Undefined?
    ensures TotalBillableHours(Read(i)) == 0.0
    ensures FinalBillableHourlyRate(Read(i)) == 1.0
  {
    var f := Read(i);
    assert f.trucks == 0.0 && f.days == 125.0 && f.hours == 8.0;
    assert f.techSalary == 1000.0 && f.helperSalary == 0.0;
    assert BillableHoursPerTruck(f) == 1000.0;
    assert OverheadHourlyRate(f) == 0.0;
    assert TechHourlyAddon(f) == 1.0;
    assert HelperHourlyAddon(f) == 0.0;
    Hundredths(100);
    RoundHalfUp2OfCents(1.0);
  }

  /** The helper add-on is exactly 0 without a helper salary or without hours per truck. */
  lemma HelperAddon(f: Figures)
    ensures f.helperSalary == 0.0 || BillableHoursPerTruck(f) == 0.0 ==> HelperHourlyAddon(f) == 0.0
    ensures BillableHoursPerTruck(f) != 0.0 ==> HelperHourlyAddon(f) * BillableHoursPerTruck(f) == f.helperSalary
  {
  }

  /**
   * Before rounding, the hourly rate earns over the fleet's hours exactly the
   * revenue target plus one technician's and one helper's salary per truck.
   */
  lemma UnroundedRateCoversCosts(f: Figures)
    requires TotalBillableHours(f) != 0.0
    ensures (OverheadHourlyRate(f) + TechHourlyAddon(f) + HelperHourlyAddon(f)) * TotalBillableHours(f)
         == RevenueTarget(f) + f.trucks * (f.techSalary + f.helperSalary)
  {
    var n, b, t := f.trucks, BillableHoursPerTruck(f), TotalBillableHours(f);
    var o, a, h := OverheadHourlyRate(f), TechHourlyAddon(f), HelperHourlyAddon(f);
    assert t == n * b;
    assert b != 0.0;
    assert o * t == RevenueTarget(f);
    assert a * b == f.techSalary;
    HelperAddon(f);
    calc {
      (o + a + h) * t;
      o * t + n * (a * b + h * b);
    }
  }

  /** The final rate is the sum of the three rates rounded to the nearest cent. */
  lemma FinalRateIsRoundedSum(f: Figures)
    ensures IsCents(FinalBillableHourlyRate(f))
    ensures HalfUpWindow(OverheadHourlyRate(f) + TechHourlyAddon(f) + HelperHourlyAddon(f), FinalBillableHourlyRate(f))
  {
    RoundToCentsOfNumber(OverheadHourlyRate(f) + TechHourlyAddon(f) + HelperHourlyAddon(f));
  }

  /** The yearly gross is the already rounded rate times the billable hours, rounded to cents. */
  lemma GrossRevenueFromRoundedRate(f: Figures)
    ensures IsCents(EstYearlyGrossRevenue(f))
    ensures HalfUpWindow(RateTimesHours(f), EstYearlyGrossRevenue(f))
    ensures RateTimesHours(f) == FinalBillableHourlyRate(f) * TotalBillableHours(f)
  {
    RoundToCentsOfNumber(RateTimesHours(f));
  }

  /** Per-truck and daily figures divide safely: no trucks gives 0 per truck, no working days 0 per day. */
  lemma PerTruckAndDailyZeroSafe(f: Figures)
    ensures f.trucks == 0.0 ==> AnnualPerTruck(f) == 0.0 && DailyRevenuePerTruck(f) == 0.0
    ensures f.days == 0.0 ==> DailyRevenueTotal(f) == 0.0
  {
    assert RoundHalfUp2(0.0) == 0.0;
  }

  /**
   * The per-truck daily figure is rounded twice: the daily total is rounded
   * to cents before it is split between the trucks. A gross of 1.00 over 8
   * days and 2 trucks gives 0.07, where one rounding would give 0.06.
   */
  lemma DailyPerTruckRoundsTwice(f: Figures)
    requires EstYearlyGrossRevenue(f) == 1.0 && f.days == 8.0 && f.trucks == 2.0
    ensures DailyRevenueTotal(f) == 0.13
    ensures DailyRevenuePerTruck(f) == 0.07
    ensures RoundHalfUp2(EstYearlyGrossRevenue(f) / (f.days * f.trucks)) == 0.06
  {
    Hundredths(13);
    Hundredths(7);
    Hundredths(6);
    RoundHalfUp2Unique(0.125, 0.13);
    RoundHalfUp2Unique(0.065, 0.07);
    RoundHalfUp2Unique(0.0625, 0.06);
  }

  /** 0 without last year's revenue, else the overhead as a percentage of it, in cents. */
  lemma OverheadPercent(f: Figures)
    ensures f.revenueLastYear == 0.0 ==> OverheadPercentOfLastYear(f) == 0.0
    ensures f.revenueLastYear != 0.0 ==>
      OverheadPercentOfLastYear(f) == RoundHalfUp2(f.overhead * 100.0 / f.revenueLastYear)
  {
  }

  /** The overhead total reads none of the salaries, operational settings or last year's revenue. */
  lemma TotalOverheadIgnoresOtherFields(i: OverheadInputs, hts: Value, hs: Value, n: Value, w: Value, h: Value, rev: Value)
    ensures TotalAnnualOverhead(i.(highestTechSalary := hts, helperSalary := hs, numTrucks := n,
                                   workingDaysPerYear := w, avgHoursPerDay := h, totalRevenueLastYear := rev))
         == TotalAnnualOverhead(i)
  {
    var j := i.(highestTechSalary := hts, helperSalary := hs, numTrucks := n,
                workingDaysPerYear := w, avgHoursPerDay := h, totalRevenueLastYear := rev);
    assert OverheadItems(j) == OverheadItems(i);
  }
}
