/**
 * The pricing matrix: each stored service is priced at one unit from its
 * material cost, markup, labor hours and an hourly rate, which is the
 * service's own override when it has one and otherwise the rate derived
 * from the user's overhead record.
 */
module PricingService {
  import opened Js
  import opened Decimal
  import OverheadService

  /**
   * A stored service. The numeric fields are `None` when missing or null;
   * `description` is passed through untouched.
   */
  datatype ServiceItem = ServiceItem(
    id: string, name: string, category: string, description: Option<string>,
    materialCost: Option<real>, markupPct: Option<real>, laborHours: Option<real>,
    hourlyRateOverride: Option<real>)

  /** One entry of `calculateServicePricing`'s result. */
  datatype ServicePricing = ServicePricing(
    id: string, name: string, category: string, description: Option<string>,
    materialCost: real, markupPct: real, laborHours: real, hourlyRateOverride: Option<real>,
    hourlyRateUsed: real, materialPrice: real, laborPrice: real,
    totalPrice: real, grossProfit: real, marginPct: real)

  /**
   * The pure part of `getHourlyRate`: 0 without an overhead record, else the
   * overhead service's rounded final rate (`|| 0` changes no exact number).
   */
  function HourlyRate(record: Option<OverheadService.OverheadRecord>): (rate: real)
    ensures record.None? ==> rate == 0.0
    ensures record.Some? ==> IsCents(rate)
    ensures record.Some? ==>
      HalfUpWindow(OverheadService.FinalBillableHourlyRate(OverheadService.Read(record.value)), rate)
  {
    match record
    case None => 0.0
    case Some(r) => Or(Some(OverheadService.CalculateResults(r).finalBillableHourlyRate), 0.0)
  }

  /** A record that passes validation, whose numbers are all non-negative, gives a non-negative rate. */
  lemma HourlyRateNonNegative(record: OverheadService.OverheadRecord)
    requires forall k :: k in record ==> record[k] >= 0.0
    ensures HourlyRate(Some(record)) >= 0.0
  {
    OverheadService.FinalRateNonNegative(record);
  }

  // The exact figures of one service, in the order `calculateServicePricing` computes them.

  /** `material_cost || 0`. */
  function Cost(svc: ServiceItem): real {
    Or(svc.materialCost, 0.0)
  }

  /** `material_markup_pct ?? 25`. */
  function Markup(svc: ServiceItem): real {
    Coalesce(svc.markupPct, 25.0)
  }

  /** `labor_hours || 0`. */
  function Hours(svc: ServiceItem): real {
    Or(svc.laborHours, 0.0)
  }

  /** `hourly_rate_override ?? fallbackRate`. */
  function Rate(svc: ServiceItem, fallbackRate: real): real {
    Coalesce(svc.hourlyRateOverride, fallbackRate)
  }

  function MaterialPrice(svc: ServiceItem): real {
    Cost(svc) * (1.0 + Markup(svc) / 100.0)
  }

  function LaborPrice(svc: ServiceItem, fallbackRate: real): real {
    Hours(svc) * Rate(svc, fallbackRate)
  }

  function TotalPrice(svc: ServiceItem, fallbackRate: real): real {
    MaterialPrice(svc) + LaborPrice(svc, fallbackRate)
  }

  function GrossProfit(svc: ServiceItem, fallbackRate: real): real {
    TotalPrice(svc, fallbackRate) - Cost(svc)
  }

  function MarginPct(svc: ServiceItem, fallbackRate: real): real {
    if TotalPrice(svc, fallbackRate) == 0.0 then 0.0
    else GrossProfit(svc, fallbackRate) / TotalPrice(svc, fallbackRate) * 100.0
  }

  /**
   * The callback of `services.map`: identity fields and the override pass
   * through, every figure is rounded half-up to cents, and the rate used is
   * the override whenever one is stored, even 0.
   */
  function PriceService(svc: ServiceItem, fallbackRate: real): (p: ServicePricing)
    ensures p.id == svc.id && p.name == svc.name && p.category == svc.category
    ensures p.description == svc.description && p.hourlyRateOverride == svc.hourlyRateOverride
    ensures svc.hourlyRateOverride.Some? ==> p.hourlyRateUsed == RoundHalfUp2(svc.hourlyRateOverride.value)
    ensures svc.hourlyRateOverride.None? ==> p.hourlyRateUsed == RoundHalfUp2(fallbackRate)
    ensures svc.markupPct.Some? ==> p.markupPct == RoundHalfUp2(svc.markupPct.value)
    ensures svc.markupPct.None? ==> p.markupPct == 25.0
    ensures RoundsTo(Cost(svc), p.materialCost) && RoundsTo(Hours(svc), p.laborHours)
    ensures RoundsTo(MaterialPrice(svc), p.materialPrice)
    ensures RoundsTo(LaborPrice(svc, fallbackRate), p.laborPrice)
    ensures RoundsTo(TotalPrice(svc, fallbackRate), p.totalPrice)
    ensures RoundsTo(GrossProfit(svc, fallbackRate), p.grossProfit)
    ensures RoundsTo(MarginPct(svc, fallbackRate), p.marginPct)
  {
    Hundredths(2500);
    RoundHalfUp2OfCents(25.0);
    ServicePricing(
      id := svc.id, name := svc.name, category := svc.category, description := svc.description,
      materialCost := RoundHalfUp2(Cost(svc)),
      markupPct := RoundHalfUp2(Markup(svc)),
      laborHours := RoundHalfUp2(Hours(svc)),
      hourlyRateOverride := svc.hourlyRateOverride,
      hourlyRateUsed := RoundHalfUp2(Rate(svc, fallbackRate)),
      materialPrice := RoundHalfUp2(MaterialPrice(svc)),
      laborPrice := RoundHalfUp2(LaborPrice(svc, fallbackRate)),
      totalPrice := RoundHalfUp2(TotalPrice(svc, fallbackRate)),
      grossProfit := RoundHalfUp2(GrossProfit(svc, fallbackRate)),
      marginPct := RoundHalfUp2(MarginPct(svc, fallbackRate)))
  }

  /** `calculateServicePricing(services, fallbackRate)`: one priced entry per service, in order. */
  function CalculateServicePricing(services: seq<ServiceItem>, fallbackRate: real): (r: seq<ServicePricing>)
    ensures |r| == |services|
    ensures forall i :: 0 <= i < |services| ==> r[i] == PriceService(services[i], fallbackRate)
  {
    if services == [] then []
    else [PriceService(services[0], fallbackRate)] + CalculateServicePricing(services[1..], fallbackRate)
  }

  /** A stored override of 0 is used as is: the labor is free whatever the fallback rate. */
  lemma ZeroOverrideIsUsed(svc: ServiceItem, fallbackRate: real)
    requires svc.hourlyRateOverride == Some(0.0)
    ensures PriceService(svc, fallbackRate).hourlyRateUsed == 0.0
    ensures PriceService(svc, fallbackRate).laborPrice == 0.0
    ensures TotalPrice(svc, fallbackRate) == MaterialPrice(svc)
  {
    Hundredths(0);
    RoundHalfUp2OfCents(0.0);
  }

  /** An explicit markup of 0 is kept, so the material is sold at cost. */
  lemma ZeroMarkupIsKept(svc: ServiceItem, fallbackRate: real)
    requires svc.markupPct == Some(0.0)
    ensures Markup(svc) == 0.0
    ensures MaterialPrice(svc) == Cost(svc)
    ensures PriceService(svc, fallbackRate).materialPrice == PriceService(svc, fallbackRate).materialCost
  {
  }

  /** The gross profit is the markup on the materials plus all of the labor price. */
  lemma GrossProfitIsMarkupPlusLabor(svc: ServiceItem, fallbackRate: real)
    ensures GrossProfit(svc, fallbackRate) == Cost(svc) * Markup(svc) / 100.0 + LaborPrice(svc, fallbackRate)
  {
    assert MaterialPrice(svc) == Cost(svc) + Cost(svc) * Markup(svc) / 100.0;
  }

  /** The service fields that validation accepts: no negative cost, markup, hours or override. */
  predicate ValidService(svc: ServiceItem) {
    (svc.materialCost.Some? ==> svc.materialCost.value >= 0.0) &&
    (svc.markupPct.Some? ==> svc.markupPct.value >= 0.0) &&
    (svc.laborHours.Some? ==> svc.laborHours.value >= 0.0) &&
    (svc.hourlyRateOverride.Some? ==> svc.hourlyRateOverride.value >= 0.0)
  }

  /** A profit share lies between 0 and 100 percent. */
  lemma ShareIsPercentage(part: real, whole: real)
    requires 0.0 <= part <= whole && whole != 0.0
    ensures 0.0 <= part / whole * 100.0 <= 100.0
  {
    assert part / whole <= 1.0;
  }

  /**
   * With valid inputs and a non-negative fallback rate, the profit is never
   * negative and the margin stays between 0 and 100.
   */
  lemma MarginWithinBounds(svc: ServiceItem, fallbackRate: real)
    requires ValidService(svc) && fallbackRate >= 0.0
    ensures 0.0 <= GrossProfit(svc, fallbackRate) <= TotalPrice(svc, fallbackRate)
    ensures 0.0 <= MarginPct(svc, fallbackRate) <= 100.0
  {
    var cost, markup := Cost(svc), Markup(svc);
    var hours, rate := Hours(svc), Rate(svc, fallbackRate);
    var total, profit := TotalPrice(svc, fallbackRate), GrossProfit(svc, fallbackRate);
    ProductNonNegative(cost, markup);
    ProductNonNegative(hours, rate);
    GrossProfitIsMarkupPlusLabor(svc, fallbackRate);
    assert profit == cost * markup / 100.0 + hours * rate;
    assert profit == total - cost;
    if total != 0.0 {
      ShareIsPercentage(profit, total);
    }
  }

  /** The same bounds hold for the returned, rounded figures. */
  lemma RoundedMarginWithinBounds(svc: ServiceItem, fallbackRate: real)
    requires ValidService(svc) && fallbackRate >= 0.0
    ensures 0.0 <= PriceService(svc, fallbackRate).grossProfit
    ensures 0.0 <= PriceService(svc, fallbackRate).marginPct <= 100.0
  {
    MarginWithinBounds(svc, fallbackRate);
    RoundHalfUp2Monotone(MarginPct(svc, fallbackRate), 100.0);
    Hundredths(10000);
    RoundHalfUp2OfCents(100.0);
  }

  /** The service of the worked example: cost 100, markup 25, 2 hours, no override. */
  function ExampleService(): ServiceItem {
    ServiceItem("svc-1", "Tune-up", "hvac", None, Some(100.0), Some(25.0), Some(2.0), None)
  }

  /** At a fallback rate of 50 it sells for 225, with a profit of 125 and a margin of 55.56. */
  lemma ExamplePricing()
    ensures PriceService(ExampleService(), 50.0).materialPrice == 125.0
    ensures PriceService(ExampleService(), 50.0).laborPrice == 100.0
    ensures PriceService(ExampleService(), 50.0).totalPrice == 225.0
    ensures PriceService(ExampleService(), 50.0).grossProfit == 125.0
    ensures PriceService(ExampleService(), 50.0).marginPct == 55.56
  {
    var svc := ExampleService();
    assert MaterialPrice(svc) == 125.0 && LaborPrice(svc, 50.0) == 100.0;
    Hundredths(12500);
    Hundredths(10000);
    Hundredths(22500);
    RoundHalfUp2OfCents(125.0);
    RoundHalfUp2OfCents(100.0);
    RoundHalfUp2OfCents(225.0);
    assert MarginPct(svc, 50.0) == 500.0 / 9.0;
    Hundredths(5556);
    RoundHalfUp2Unique(500.0 / 9.0, 55.56);
  }

  /**
   * The total is rounded from the exact sum, not summed from the rounded
   * parts: half a cent of material and half a cent of labor sell for one cent.
   */
  lemma TotalIsNotSumOfRoundedParts()
    ensures var p := PriceService(ServiceItem("s", "n", "general", None, Some(0.004), Some(25.0), Some(0.005), Some(1.0)), 0.0);
      p.materialPrice == 0.01 && p.laborPrice == 0.01 && p.totalPrice == 0.01
  {
    var svc := ServiceItem("s", "n", "general", None, Some(0.004), Some(25.0), Some(0.005), Some(1.0));
    assert MaterialPrice(svc) == 0.005 && LaborPrice(svc, 0.0) == 0.005 && TotalPrice(svc, 0.0) == 0.01;
    Hundredths(1);
    RoundHalfUp2Unique(0.005, 0.01);
    RoundHalfUp2OfCents(0.01);
  }
}
