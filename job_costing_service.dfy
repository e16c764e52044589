/**
 * Job costing: each line item of a job is priced like a pricing-matrix
 * service and then multiplied by its quantity, and the calculated line items
 * are folded into job totals.
 */
module JobCostingService {
  import opened Js
  import opened Decimal
  import PricingService

  /** A stored line item: a service plus an optional quantity (`None` when missing or null). */
  datatype LineItem = LineItem(
    id: string, name: string, category: string, description: Option<string>,
    materialCost: Option<real>, markupPct: Option<real>, laborHours: Option<real>,
    hourlyRateOverride: Option<real>, quantity: Option<real>)

  /** One entry of `calculateLineItems`'s result. */
  datatype LineCosting = LineCosting(
    id: string, name: string, category: string, description: Option<string>,
    materialCost: real, markupPct: real, laborHours: real, hourlyRateOverride: Option<real>,
    quantity: real, hourlyRateUsed: real, materialPrice: real, laborPrice: real,
    unitPrice: real, lineTotal: real, lineCost: real, lineProfit: real, marginPct: real)

  /** The job-level figures of `calculateJobTotals`. */
  datatype JobTotals = JobTotals(
    totalMaterials: real, totalRevenue: real, totalProfit: real,
    totalLaborHours: real, overallMarginPct: real, lineItemCount: nat)

  // The exact figures of one line item, in the order `calculateLineItems` computes them.

  /** `material_cost || 0`. */
  function Cost(item: LineItem): real {
    Or(item.materialCost, 0.0)
  }

  /** `material_markup_pct ?? 25`. */
  function Markup(item: LineItem): real {
    Coalesce(item.markupPct, 25.0)
  }

  /** `labor_hours || 0`. */
  function Hours(item: LineItem): real {
    Or(item.laborHours, 0.0)
  }

  /** `hourly_rate_override ?? fallbackRate`. */
  function Rate(item: LineItem, fallbackRate: real): real {
    Coalesce(item.hourlyRateOverride, fallbackRate)
  }

  /** `quantity || 1`: a missing or zero quantity counts as one, so it is never 0. */
  function Quantity(item: LineItem): (q: real)
    ensures q != 0.0
    ensures item.quantity.Some? && item.quantity.value != 0.0 ==> q == item.quantity.value
    ensures item.quantity.None? || item.quantity == Some(0.0) ==> q == 1.0
  {
    Or(item.quantity, 1.0)
  }

  function MaterialPrice(item: LineItem): real {
    Cost(item) * (1.0 + Markup(item) / 100.0)
  }

  function LaborPrice(item: LineItem, fallbackRate: real): real {
    Hours(item) * Rate(item, fallbackRate)
  }

  function UnitPrice(item: LineItem, fallbackRate: real): real {
    MaterialPrice(item) + LaborPrice(item, fallbackRate)
  }

  function LineTotal(item: LineItem, fallbackRate: real): real {
    UnitPrice(item, fallbackRate) * Quantity(item)
  }

  function LineCost(item: LineItem): real {
    Cost(item) * Quantity(item)
  }

  function LineProfit(item: LineItem, fallbackRate: real): real {
    LineTotal(item, fallbackRate) - LineCost(item)
  }

  function MarginPct(item: LineItem, fallbackRate: real): real {
    if LineTotal(item, fallbackRate) == 0.0 then 0.0
    else LineProfit(item, fallbackRate) / LineTotal(item, fallbackRate) * 100.0
  }

  /**
   * The callback of `lineItems.map`: identity fields and the override pass
   * through, the quantity is returned as used, and every money figure is
   * rounded half-up to cents from the exact one.
   */
  function CostLineItem(item: LineItem, fallbackRate: real): (c: LineCosting)
    ensures c.id == item.id && c.name == item.name && c.category == item.category
    ensures c.description == item.description && c.hourlyRateOverride == item.hourlyRateOverride
    ensures c.quantity == Quantity(item)
    ensures item.hourlyRateOverride.Some? ==> c.hourlyRateUsed == RoundHalfUp2(item.hourlyRateOverride.value)
    ensures item.hourlyRateOverride.None? ==> c.hourlyRateUsed == RoundHalfUp2(fallbackRate)
    ensures item.markupPct.Some? ==> c.markupPct == RoundHalfUp2(item.markupPct.value)
    ensures item.markupPct.None? ==> c.markupPct == 25.0
    ensures RoundsTo(Cost(item), c.materialCost) && RoundsTo(Hours(item), c.laborHours)
    ensures RoundsTo(MaterialPrice(item), c.materialPrice)
    ensures RoundsTo(LaborPrice(item, fallbackRate), c.laborPrice)
    ensures RoundsTo(UnitPrice(item, fallbackRate), c.unitPrice)
    ensures RoundsTo(LineTotal(item, fallbackRate), c.lineTotal)
    ensures RoundsTo(LineCost(item), c.lineCost)
    ensures RoundsTo(LineProfit(item, fallbackRate), c.lineProfit)
    ensures RoundsTo(MarginPct(item, fallbackRate), c.marginPct)
    ensures LaborHoursOf(c) == LaborHoursUsed(item)
  {
    Hundredths(2500);
    RoundHalfUp2OfCents(25.0);
    LineCosting(
      id := item.id, name := item.name, category := item.category, description := item.description,
      materialCost := RoundHalfUp2(Cost(item)),
      markupPct := RoundHalfUp2(Markup(item)),
      laborHours := RoundHalfUp2(Hours(item)),
      hourlyRateOverride := item.hourlyRateOverride,
      quantity := Quantity(item),
      hourlyRateUsed := RoundHalfUp2(Rate(item, fallbackRate)),
      materialPrice := RoundHalfUp2(MaterialPrice(item)),
      laborPrice := RoundHalfUp2(LaborPrice(item, fallbackRate)),
      unitPrice := RoundHalfUp2(UnitPrice(item, fallbackRate)),
      lineTotal := RoundHalfUp2(LineTotal(item, fallbackRate)),
      lineCost := RoundHalfUp2(LineCost(item)),
      lineProfit := RoundHalfUp2(LineProfit(item, fallbackRate)),
      marginPct := RoundHalfUp2(MarginPct(item, fallbackRate)))
  }

  /** `calculateLineItems(lineItems, fallbackRate)`: one costed entry per line item, in order. */
  function CalculateLineItems(items: seq<LineItem>, fallbackRate: real): (r: seq<LineCosting>)
    ensures |r| == |items|
    ensures forall i :: 0 <= i < |items| ==> r[i] == CostLineItem(items[i], fallbackRate)
  {
    if items == [] then []
    else [CostLineItem(items[0], fallbackRate)] + CalculateLineItems(items[1..], fallbackRate)
  }

  /** The same line item seen as a pricing-matrix service, without its quantity. */
  function AsService(item: LineItem): PricingService.ServiceItem {
    PricingService.ServiceItem(
      item.id, item.name, item.category, item.description,
      item.materialCost, item.markupPct, item.laborHours, item.hourlyRateOverride)
  }

  /** `quantity` is the only difference: the unit price is the service's total price. */
  lemma UnitPriceIsServicePrice(item: LineItem, fallbackRate: real)
    ensures UnitPrice(item, fallbackRate) == PricingService.TotalPrice(AsService(item), fallbackRate)
    ensures Cost(item) == PricingService.Cost(AsService(item))
  {
  }

  /**
   * With quantity 1 the line item is priced exactly like the pricing-matrix
   * service: unit price and line total are its total price, the line profit
   * is its gross profit and the margins agree.
   */
  lemma QuantityOneMatchesPricing(item: LineItem, fallbackRate: real)
    requires Quantity(item) == 1.0
    ensures CostLineItem(item, fallbackRate).unitPrice == PricingService.PriceService(AsService(item), fallbackRate).totalPrice
    ensures CostLineItem(item, fallbackRate).lineTotal == PricingService.PriceService(AsService(item), fallbackRate).totalPrice
    ensures CostLineItem(item, fallbackRate).lineProfit == PricingService.PriceService(AsService(item), fallbackRate).grossProfit
    ensures CostLineItem(item, fallbackRate).marginPct == PricingService.PriceService(AsService(item), fallbackRate).marginPct
  {
    UnitPriceIsServicePrice(item, fallbackRate);
    assert LineTotal(item, fallbackRate) == PricingService.TotalPrice(AsService(item), fallbackRate);
    assert LineProfit(item, fallbackRate) == PricingService.GrossProfit(AsService(item), fallbackRate);
  }

  /** Scaling both sides of a share by the same non-zero factor leaves it unchanged. */
  lemma ScaledShare(part: real, whole: real, q: real)
    requires whole != 0.0 && q != 0.0
    ensures (part * q) / (whole * q) == part / whole
  {
  }

  /**
   * The margin is 0 when the line total is, and otherwise does not depend on
   * the quantity: it is the margin of the unit price over the material cost.
   */
  lemma MarginIgnoresQuantity(item: LineItem, fallbackRate: real)
    ensures LineTotal(item, fallbackRate) == 0.0 <==> UnitPrice(item, fallbackRate) == 0.0
    ensures MarginPct(item, fallbackRate) ==
      if UnitPrice(item, fallbackRate) == 0.0 then 0.0
      else (UnitPrice(item, fallbackRate) - Cost(item)) / UnitPrice(item, fallbackRate) * 100.0
  {
    var u, c, q := UnitPrice(item, fallbackRate), Cost(item), Quantity(item);
    assert LineProfit(item, fallbackRate) == (u - c) * q;
    if u != 0.0 {
      ProductNonZero(u, q);
      ScaledShare(u - c, u, q);
    }
  }

  /** A line item that validation accepts: a valid service and a quantity of at least 1. */
  predicate ValidLineItem(item: LineItem) {
    PricingService.ValidService(AsService(item)) &&
    (item.quantity.Some? ==> item.quantity.value >= 1.0)
  }

  /** A valid line item never costs more than it sells for, exact or rounded. */
  lemma LineCostWithinTotal(item: LineItem, fallbackRate: real)
    requires ValidLineItem(item) && fallbackRate >= 0.0
    ensures 0.0 <= LineCost(item) <= LineTotal(item, fallbackRate)
    ensures 0.0 <= CostLineItem(item, fallbackRate).lineCost <= CostLineItem(item, fallbackRate).lineTotal
  {
    var svc := AsService(item);
    UnitPriceIsServicePrice(item, fallbackRate);
    PricingService.MarginWithinBounds(svc, fallbackRate);
    var c, u, q := Cost(item), UnitPrice(item, fallbackRate), Quantity(item);
    assert 0.0 <= c <= u && q > 0.0;
    ProductNonNegative(c, q);
    ProductNonNegative(u - c, q);
    RoundHalfUp2Monotone(LineCost(item), LineTotal(item, fallbackRate));
  }

  // `calculateJobTotals`: the `reduce` and the figures read from each calculated item.

  function LineCostOf(c: LineCosting): real {
    c.lineCost
  }

  function LineTotalOf(c: LineCosting): real {
    c.lineTotal
  }

  function LineProfitOf(c: LineCosting): real {
    c.lineProfit
  }

  /** `labor_hours × quantity`, from the returned (rounded) hours. */
  function LaborHoursOf(c: LineCosting): real {
    c.laborHours * c.quantity
  }

  /** The accumulator of the `reduce`. */
  datatype Sums = Sums(materials: real, revenue: real, laborHours: real)

  /** The `reduce`: one pass adding each item's cost, total and labor hours. */
  function Accumulate(items: seq<LineCosting>): (acc: Sums)
    ensures acc.materials == SumOf(items, LineCostOf)
    ensures acc.revenue == SumOf(items, LineTotalOf)
    ensures acc.laborHours == SumOf(items, LaborHoursOf)
  {
    if items == [] then Sums(0.0, 0.0, 0.0)
    else
      var acc := Accumulate(items[..|items| - 1]);
      var item := items[|items| - 1];
      Sums(acc.materials + item.lineCost, acc.revenue + item.lineTotal,
           acc.laborHours + item.laborHours * item.quantity)
  }

  /** The overall margin from the exact sums, 0 for a job without revenue. */
  function OverallMargin(acc: Sums): real {
    if acc.revenue == 0.0 then 0.0 else (acc.revenue - acc.materials) / acc.revenue * 100.0
  }

  /** The returned totals: the sums, profit and margin rounded half-up to cents. */
  function Totals(acc: Sums, count: nat): (t: JobTotals)
    ensures t.lineItemCount == count
    ensures RoundsTo(acc.materials, t.totalMaterials) && RoundsTo(acc.revenue, t.totalRevenue)
    ensures RoundsTo(acc.revenue - acc.materials, t.totalProfit)
    ensures RoundsTo(acc.laborHours, t.totalLaborHours)
    ensures acc.revenue == 0.0 ==> t.overallMarginPct == 0.0
    ensures acc.revenue != 0.0 ==>
      RoundsTo((acc.revenue - acc.materials) / acc.revenue * 100.0, t.overallMarginPct)
  {
    Hundredths(0);
    RoundHalfUp2OfCents(0.0);
    JobTotals(
      totalMaterials := RoundHalfUp2(acc.materials),
      totalRevenue := RoundHalfUp2(acc.revenue),
      totalProfit := RoundHalfUp2(acc.revenue - acc.materials),
      totalLaborHours := RoundHalfUp2(acc.laborHours),
      overallMarginPct := RoundHalfUp2(OverallMargin(acc)),
      lineItemCount := count)
  }

  /** `calculateJobTotals(calculatedItems)`: fold the items, then round. */
  function CalculateJobTotals(items: seq<LineCosting>): (t: JobTotals)
    ensures t.lineItemCount == |items|
    ensures RoundsTo(SumOf(items, LineCostOf), t.totalMaterials)
    ensures RoundsTo(SumOf(items, LineTotalOf), t.totalRevenue)
    ensures RoundsTo(SumOf(items, LineTotalOf) - SumOf(items, LineCostOf), t.totalProfit)
    ensures RoundsTo(SumOf(items, LaborHoursOf), t.totalLaborHours)
    ensures SumOf(items, LineTotalOf) == 0.0 ==> t.overallMarginPct == 0.0
    ensures SumOf(items, LineTotalOf) != 0.0 ==>
      RoundsTo((SumOf(items, LineTotalOf) - SumOf(items, LineCostOf)) / SumOf(items, LineTotalOf) * 100.0,
               t.overallMarginPct)
  {
    Totals(Accumulate(items), |items|)
  }

  /** A job without line items has all-zero totals. */
  lemma EmptyJobTotals()
    ensures CalculateJobTotals([]) == JobTotals(0.0, 0.0, 0.0, 0.0, 0.0, 0)
  {
    Hundredths(0);
    RoundHalfUp2OfCents(0.0);
  }

  /** Reordering the line items changes no total. */
  lemma TotalsIgnoreOrder(xs: seq<LineCosting>, ys: seq<LineCosting>)
    requires multiset(xs) == multiset(ys)
    ensures CalculateJobTotals(xs) == CalculateJobTotals(ys)
  {
    SumOfPermutation(xs, ys, LineCostOf);
    SumOfPermutation(xs, ys, LineTotalOf);
    SumOfPermutation(xs, ys, LaborHoursOf);
    assert |xs| == |multiset(xs)| == |ys|;
    assert Accumulate(xs) == Accumulate(ys);
  }

  /**
   * When every line cost and line total is in cents, no rounding happens at
   * job level: the totals are the exact sums and the profit is revenue minus
   * materials.
   */
  lemma TotalsOfCentItems(items: seq<LineCosting>)
    requires forall i :: 0 <= i < |items| ==> IsCents(items[i].lineCost) && IsCents(items[i].lineTotal)
    ensures CalculateJobTotals(items).totalMaterials == SumOf(items, LineCostOf)
    ensures CalculateJobTotals(items).totalRevenue == SumOf(items, LineTotalOf)
    ensures CalculateJobTotals(items).totalProfit ==
      CalculateJobTotals(items).totalRevenue - CalculateJobTotals(items).totalMaterials
  {
    SumOfCents(items, LineCostOf);
    SumOfCents(items, LineTotalOf);
    TotalsOfCentSums(Accumulate(items), |items|);
  }

  lemma TotalsOfCentSums(acc: Sums, count: nat)
    requires IsCents(acc.materials) && IsCents(acc.revenue)
    ensures Totals(acc, count).totalMaterials == acc.materials
    ensures Totals(acc, count).totalRevenue == acc.revenue
    ensures Totals(acc, count).totalProfit == acc.revenue - acc.materials
  {
    CentsAddSub(acc.revenue, acc.materials);
    RoundHalfUp2OfCents(acc.materials);
    RoundHalfUp2OfCents(acc.revenue);
    RoundHalfUp2OfCents(acc.revenue - acc.materials);
  }

  /** Calculated line items carry their line costs and totals in cents. */
  lemma CalculatedItemsInCents(items: seq<LineItem>, fallbackRate: real)
    ensures forall i :: 0 <= i < |items| ==>
      IsCents(CalculateLineItems(items, fallbackRate)[i].lineCost) &&
      IsCents(CalculateLineItems(items, fallbackRate)[i].lineTotal)
  {
    var costed := CalculateLineItems(items, fallbackRate);
    forall i | 0 <= i < |items|
      ensures IsCents(costed[i].lineCost) && IsCents(costed[i].lineTotal)
    {
      var c := CostLineItem(items[i], fallbackRate);
      assert costed[i] == c;
    }
  }

  /** So over calculated line items the job totals are exact and the profit is revenue minus materials. */
  lemma TotalsOfCalculatedItems(items: seq<LineItem>, fallbackRate: real)
    ensures CalculateJobTotals(CalculateLineItems(items, fallbackRate)).totalMaterials ==
      SumOf(CalculateLineItems(items, fallbackRate), LineCostOf)
    ensures CalculateJobTotals(CalculateLineItems(items, fallbackRate)).totalRevenue ==
      SumOf(CalculateLineItems(items, fallbackRate), LineTotalOf)
    ensures CalculateJobTotals(CalculateLineItems(items, fallbackRate)).totalProfit ==
      CalculateJobTotals(CalculateLineItems(items, fallbackRate)).totalRevenue -
      CalculateJobTotals(CalculateLineItems(items, fallbackRate)).totalMaterials
  {
    CalculatedItemsInCents(items, fallbackRate);
    TotalsOfCentItems(CalculateLineItems(items, fallbackRate));
  }

  /** The labor hours a line adds to the job: its input hours rounded to cents, times the quantity used. */
  function LaborHoursUsed(item: LineItem): real {
    RoundHalfUp2(Hours(item)) * Quantity(item)
  }

  /** Costing all but the last item gives all but the last costed line. */
  lemma CalculateLineItemsPrefix(items: seq<LineItem>, fallbackRate: real)
    requires items != []
    ensures CalculateLineItems(items, fallbackRate)[..|items| - 1] == CalculateLineItems(items[..|items| - 1], fallbackRate)
  {
  }

  /** The job's labor hours come from the line items' own hours, rounded and scaled by the quantity used. */
  lemma {:induction false} LaborHoursOfCalculatedItems(items: seq<LineItem>, fallbackRate: real)
    ensures SumOf(CalculateLineItems(items, fallbackRate), LaborHoursOf) == SumOf(items, LaborHoursUsed)
    decreases |items|
  {
    if items != [] {
      var n := |items|;
      var costed := CalculateLineItems(items, fallbackRate);
      CalculateLineItemsPrefix(items, fallbackRate);
      LaborHoursOfCalculatedItems(items[..n - 1], fallbackRate);
    }
  }

  /** The returned total labor hours are that sum rounded to cents. */
  lemma TotalLaborHoursOfCalculatedItems(items: seq<LineItem>, fallbackRate: real)
    ensures RoundsTo(SumOf(items, LaborHoursUsed),
                     CalculateJobTotals(CalculateLineItems(items, fallbackRate)).totalLaborHours)
  {
    LaborHoursOfCalculatedItems(items, fallbackRate);
  }

  /**
   * A job of valid line items at a non-negative rate never shows a loss, and
   * its margin lies between 0 and 100.
   */
  lemma JobMarginWithinBounds(items: seq<LineItem>, fallbackRate: real)
    requires forall i :: 0 <= i < |items| ==> ValidLineItem(items[i])
    requires fallbackRate >= 0.0
    ensures 0.0 <= CalculateJobTotals(CalculateLineItems(items, fallbackRate)).totalProfit
    ensures 0.0 <= CalculateJobTotals(CalculateLineItems(items, fallbackRate)).overallMarginPct <= 100.0
  {
    var costed := CalculateLineItems(items, fallbackRate);
    forall i | 0 <= i < |costed|
      ensures 0.0 <= LineCostOf(costed[i]) <= LineTotalOf(costed[i])
    {
      LineCostWithinTotal(items[i], fallbackRate);
    }
    SumOfMonotone(costed, LineCostOf, LineTotalOf);
    SumsWithinBounds(Accumulate(costed), |costed|);
  }

  /** Totals of sums whose materials lie between 0 and the revenue. */
  lemma SumsWithinBounds(acc: Sums, count: nat)
    requires 0.0 <= acc.materials <= acc.revenue
    ensures 0.0 <= Totals(acc, count).totalProfit
    ensures 0.0 <= Totals(acc, count).overallMarginPct <= 100.0
  {
    if acc.revenue != 0.0 {
      PricingService.ShareIsPercentage(acc.revenue - acc.materials, acc.revenue);
    }
    RoundHalfUp2Monotone(OverallMargin(acc), 100.0);
    Hundredths(10000);
    RoundHalfUp2OfCents(100.0);
  }

  /** The fold over two items. */
  lemma AccumulatePair(a: LineCosting, b: LineCosting)
    ensures Accumulate([a, b]) == Sums(a.lineCost + b.lineCost, a.lineTotal + b.lineTotal,
                                      a.laborHours * a.quantity + b.laborHours * b.quantity)
  {
    assert [a, b][..1] == [a];
    assert [a][..0] == [];
  }

  /** The line item of the worked example: cost 100, markup 25, 2 hours. */
  function ExampleItem(quantity: real): LineItem {
    LineItem("item-1", "Tune-up", "hvac", None, Some(100.0), Some(25.0), Some(2.0), None, Some(quantity))
  }

  /** One unit at a fallback rate of 50: 225 of revenue on 100 of materials. */
  lemma ExampleSingleUnit()
    ensures CostLineItem(ExampleItem(1.0), 50.0).lineTotal == 225.0
    ensures CostLineItem(ExampleItem(1.0), 50.0).lineCost == 100.0
  {
    var item := ExampleItem(1.0);
    assert LineTotal(item, 50.0) == 225.0 && LineCost(item) == 100.0;
    Hundredths(22500);
    Hundredths(10000);
    RoundHalfUp2OfCents(225.0);
    RoundHalfUp2OfCents(100.0);
  }

  /** Three units at a fallback rate of 50: 675 of revenue on 300 of materials. */
  lemma ExampleLineItem()
    ensures CostLineItem(ExampleItem(3.0), 50.0).unitPrice == 225.0
    ensures CostLineItem(ExampleItem(3.0), 50.0).lineTotal == 675.0
    ensures CostLineItem(ExampleItem(3.0), 50.0).lineCost == 300.0
    ensures CostLineItem(ExampleItem(3.0), 50.0).lineProfit == 375.0
  {
    var item := ExampleItem(3.0);
    assert UnitPrice(item, 50.0) == 225.0;
    assert LineTotal(item, 50.0) == 675.0 && LineCost(item) == 300.0;
    Hundredths(22500);
    Hundredths(67500);
    Hundredths(30000);
    Hundredths(37500);
    RoundHalfUp2OfCents(225.0);
    RoundHalfUp2OfCents(675.0);
    RoundHalfUp2OfCents(300.0);
    RoundHalfUp2OfCents(375.0);
  }

  /** The totals of 400 of materials against 900 of revenue: 500 of profit, a margin of 55.56. */
  lemma ExampleSums(laborHours: real)
    ensures Totals(Sums(400.0, 900.0, laborHours), 2).totalRevenue == 900.0
    ensures Totals(Sums(400.0, 900.0, laborHours), 2).totalProfit == 500.0
    ensures Totals(Sums(400.0, 900.0, laborHours), 2).overallMarginPct == 55.56
  {
    Hundredths(90000);
    Hundredths(50000);
    RoundHalfUp2OfCents(900.0);
    RoundHalfUp2OfCents(500.0);
    assert OverallMargin(Sums(400.0, 900.0, laborHours)) == 500.0 / 9.0;
    Hundredths(5556);
    RoundHalfUp2Unique(500.0 / 9.0, 55.56);
  }

  /** Calculating two line items gives the two costings in order. */
  lemma CalculateLineItemsPair(a: LineItem, b: LineItem, fallbackRate: real)
    ensures CalculateLineItems([a, b], fallbackRate) == [CostLineItem(a, fallbackRate), CostLineItem(b, fallbackRate)]
  {
  }

  /** Two lines of 225 and 675 on 100 and 300 of materials give the totals of the example. */
  lemma ExamplePairTotals(one: LineCosting, three: LineCosting)
    requires one.lineTotal == 225.0 && one.lineCost == 100.0
    requires three.lineTotal == 675.0 && three.lineCost == 300.0
    ensures CalculateJobTotals([one, three]).totalRevenue == 900.0
    ensures CalculateJobTotals([one, three]).totalProfit == 500.0
    ensures CalculateJobTotals([one, three]).overallMarginPct == 55.56
  {
    var hours := one.laborHours * one.quantity + three.laborHours * three.quantity;
    AccumulatePair(one, three);
    assert Accumulate([one, three]) == Sums(400.0, 900.0, hours);
    ExampleSums(hours);
  }

  /**
   * The job of one unit and three units of that item: 900 of revenue,
   * 500 of profit, a margin of 55.56.
   */
  lemma ExampleJobTotals()
    ensures CalculateJobTotals(CalculateLineItems([ExampleItem(1.0), ExampleItem(3.0)], 50.0)).totalRevenue == 900.0
    ensures CalculateJobTotals(CalculateLineItems([ExampleItem(1.0), ExampleItem(3.0)], 50.0)).totalProfit == 500.0
    ensures CalculateJobTotals(CalculateLineItems([ExampleItem(1.0), ExampleItem(3.0)], 50.0)).overallMarginPct == 55.56
  {
    CalculateLineItemsPair(ExampleItem(1.0), ExampleItem(3.0), 50.0);
    ExampleSingleUnit();
    ExampleLineItem();
    ExamplePairTotals(CostLineItem(ExampleItem(1.0), 50.0), CostLineItem(ExampleItem(3.0), 50.0));
  }

  /** The fold over one item. */
  lemma AccumulateSingle(c: LineCosting)
    ensures Accumulate([c]) == Sums(c.lineCost, c.lineTotal, c.laborHours * c.quantity)
  {
    assert [c][..0] == [];
  }

  /** A line of 0.4 cents of material marked up 25 percent, with no labor. */
  function TinyItem(): LineItem {
    LineItem("i", "n", "general", None, Some(0.004), Some(25.0), None, None, None)
  }

  /** It sells for 1 cent, costs 0 and shows no profit. */
  lemma TinyItemCosting()
    ensures CostLineItem(TinyItem(), 0.0).lineTotal == 0.01
    ensures CostLineItem(TinyItem(), 0.0).lineCost == 0.0
    ensures CostLineItem(TinyItem(), 0.0).lineProfit == 0.0
  {
    var item := TinyItem();
    assert LineTotal(item, 0.0) == 0.005 && LineCost(item) == 0.004 && LineProfit(item, 0.0) == 0.001;
    Hundredths(0);
    Hundredths(1);
    RoundHalfUp2Unique(0.005, 0.01);
    RoundHalfUp2Unique(0.004, 0.0);
    RoundHalfUp2Unique(0.001, 0.0);
  }

  /**
   * The job profit is revenue minus materials, which need not be the sum of
   * the line profits: a job of that one line makes 1 cent.
   */
  lemma ProfitIsNotSumOfLineProfits()
    ensures var c := CostLineItem(TinyItem(), 0.0);
      SumOf([c], LineProfitOf) == 0.0 && CalculateJobTotals([c]).totalProfit == 0.01
  {
    var c := CostLineItem(TinyItem(), 0.0);
    TinyItemCosting();
    AccumulateSingle(c);
    SumOfAppend([], c, LineProfitOf);
    Hundredths(0);
    Hundredths(1);
    TotalsOfCentSums(Accumulate([c]), 1);
  }

  /**
   * The job revenue adds the rounded line totals and rounds the sum again: two
   * such lines (exactly 0.005 each) bring 2 cents, where rounding the exact
   * job revenue once would give 1 cent.
   */
  lemma JobRevenueRoundsTwice()
    ensures var c := CostLineItem(TinyItem(), 0.0);
      LineTotal(TinyItem(), 0.0) == 0.005 &&
      CalculateJobTotals([c, c]).totalRevenue == 0.02 &&
      RoundHalfUp2(2.0 * LineTotal(TinyItem(), 0.0)) == 0.01
  {
    var c := CostLineItem(TinyItem(), 0.0);
    TinyItemCosting();
    assert LineTotal(TinyItem(), 0.0) == 0.005;
    SumOfAppend([c], c, LineTotalOf);
    SumOfAppend([c], c, LineCostOf);
    SumOfAppend([], c, LineTotalOf);
    SumOfAppend([], c, LineCostOf);
    assert [c] + [c] == [c, c];
    Hundredths(0);
    Hundredths(1);
    Hundredths(2);
    TotalsOfCentSums(Accumulate([c, c]), 2);
    RoundHalfUp2Unique(0.01, 0.01);
  }
}
