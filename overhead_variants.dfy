/**
 * The two overhead calculations side by side. They agree on the formulas
 * for the overhead and technician rates, but differ in how they default the
 * operational settings and in when they round the hourly rate.
 */
module OverheadVariants {
  import opened Js
  import opened Decimal
  import Calculator = OverheadCalculator
  import Service = OverheadService

  /** The calculator's input with only the technician salary set. */
  function TechOnlyInputs(salary: real): Calculator.OverheadInputs {
    Calculator.OverheadInputs(
      Undefined, Undefined, Undefined, Undefined, Undefined, Undefined, Undefined, Undefined, Undefined,
      Undefined, Undefined, Undefined, Undefined, Undefined, Undefined, Undefined, Undefined, Undefined,
      Undefined, Undefined, Undefined, Undefined, Undefined, Undefined, Undefined,
      Num(salary), Undefined, Undefined, Undefined, Undefined, Undefined)
  }

  /** The calculator reads no overhead from an input that sets none of the 25 fields. */
  lemma CalculatorTechOnlyFigures(salary: real)
    ensures Calculator.Read(TechOnlyInputs(salary)) == Calculator.Figures(0.0, 1.0, 125.0, 8.0, salary, 0.0, 0.0)
  {
    Calculator.TotalOverheadIsSumOfFields(TechOnlyInputs(salary));
  }

  /** The service reads no overhead from a record holding only the technician salary. */
  lemma ServiceTechOnlyFigures(salary: real)
    ensures Service.Read(map[Service.HighestTechSalary := salary]) == Service.Figures(0.0, 1.0, 125.0, 8.0, salary, 0.0)
  {
    var record: Service.OverheadRecord := map[Service.HighestTechSalary := salary];
    Service.SalariesAreNotOverhead();
    forall k | k in Service.OVERHEAD_FIELDS
      ensures Service.Amount(record, k) == Service.Amount(map[], k)
    {
      assert k != Service.HighestTechSalary;
    }
    Service.TotalOverheadReadsOnlyOverheadFields(record, map[]);
    Service.EmptyRecordHasNoOverhead();
  }

  /**
   * A technician salary of 1001 over the default 1000 hours of one truck, and
   * nothing else (inputs such as the two above): both variants report a rate
   * of 1.00, but the calculator derives the yearly gross from the rounded
   * rate (1000.00) and the service from the exact one (1001.00).
   */
  lemma RoundingOrderDiffers(i: Calculator.OverheadInputs, record: Service.OverheadRecord)
    requires Calculator.Read(i) == Calculator.Figures(0.0, 1.0, 125.0, 8.0, 1001.0, 0.0, 0.0)
    requires Service.Read(record) == Service.Figures(0.0, 1.0, 125.0, 8.0, 1001.0, 0.0)
    ensures Calculator.CalculateOverhead(i).finalBillableHourlyRate == 1.0
    ensures Calculator.CalculateOverhead(i).estYearlyGrossRevenue == 1000.0
    ensures Service.CalculateResults(record).finalBillableHourlyRate == 1.0
    ensures Service.CalculateResults(record).estYearlyGross == 1001.0
  {
    CalculatorRoundsFirst(Calculator.Read(i));
    ServiceRoundsLast(Service.Read(record));
  }

  lemma CalculatorRoundsFirst(a: Calculator.Figures)
    requires a == Calculator.Figures(0.0, 1.0, 125.0, 8.0, 1001.0, 0.0, 0.0)
    ensures Calculator.FinalBillableHourlyRate(a) == 1.0
    ensures Calculator.EstYearlyGrossRevenue(a) == 1000.0
  {
    Hundredths(100);
    Hundredths(100000);
    assert Calculator.TechHourlyAddon(a) == 1.001 && Calculator.OverheadHourlyRate(a) == 0.0;
    RoundHalfUp2Unique(1.001, 1.0);
    assert Calculator.RateTimesHours(a) == 1000.0;
    RoundHalfUp2OfCents(1000.0);
  }

  lemma ServiceRoundsLast(b: Service.Figures)
    requires b == Service.Figures(0.0, 1.0, 125.0, 8.0, 1001.0, 0.0)
    ensures Service.Results(b).finalBillableHourlyRate == 1.0
    ensures Service.Results(b).estYearlyGross == 1001.0
  {
    Hundredths(100);
    Hundredths(100100);
    assert Service.FinalBillableHourlyRate(b) == 1.001;
    RoundHalfUp2Unique(1.001, 1.0);
    assert Service.EstYearlyGross(b) == 1001.0;
    RoundHalfUp2OfCents(1001.0);
  }

  /**
   * A stored 0 trucks: the calculator keeps the 0 and has no billable
   * hours, the service replaces it by 1 truck.
   */
  lemma ZeroTrucksDiffer(i: Calculator.OverheadInputs, record: Service.OverheadRecord)
    requires i.numTrucks == Num(0.0)
    requires Service.NumTrucks in record && record[Service.NumTrucks] == 0.0
    ensures Calculator.TotalBillableHours(Calculator.Read(i)) == 0.0
    ensures Service.Read(record).trucks == 1.0
  {
  }
}
