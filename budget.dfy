/**
 * The budget reconciliation and margin indicators of the calculator screens:
 * what the paint budget (a percentage of the project value) affords, set
 * against what the job needs, plus commissions and the margin status.
 * The exterior and interior screens write the same inline expressions; both
 * use these functions, with the exterior or interior figures as arguments.
 */
module Budget {
  import Exterior

  /** `value * pct / 100`. */
  function PercentOf(value: real, pct: real): real {
    value * pct / 100.0
  }

  /** The money set aside for paint: `value * paintBudgetPercentage / 100`. */
  function PaintBudget(value: real, budgetPct: real): real {
    PercentOf(value, budgetPct)
  }

  /** Gallons the budget buys: `budget / paintCostPerGallon`, unguarded. */
  function AffordableGallons(value: real, budgetPct: real, costPerGallon: real): (g: real)
    requires costPerGallon != 0.0
    ensures g * costPerGallon == PaintBudget(value, budgetPct)
  {
    PaintBudget(value, budgetPct) / costPerGallon
  }

  /** Area those gallons cover at the given number of coats. */
  function CoverableArea(value: real, budgetPct: real, costPerGallon: real, coverage: real, coats: real): (a: real)
    requires costPerGallon != 0.0 && coats != 0.0
    ensures a * coats == AffordableGallons(value, budgetPct, costPerGallon) * coverage
  {
    AffordableGallons(value, budgetPct, costPerGallon) * coverage / coats
  }

  /** "Orçamento suficiente" (otherwise "limitado"): the needed paint costs no more than the budget. */
  predicate Sufficient(value: real, budgetPct: real, paintCost: real) {
    paintCost <= PaintBudget(value, budgetPct)
  }

  /** "Orçamento excedente" (otherwise "insuficiente"): the budget buys at least the needed gallons. */
  predicate Surplus(value: real, budgetPct: real, costPerGallon: real, gallonsNeeded: real)
    requires costPerGallon != 0.0
  {
    AffordableGallons(value, budgetPct, costPerGallon) >= gallonsNeeded
  }

  /** "Diferença de Galões". */
  function GallonDifference(value: real, budgetPct: real, costPerGallon: real, gallonsNeeded: real): real
    requires costPerGallon != 0.0
  {
    AffordableGallons(value, budgetPct, costPerGallon) - gallonsNeeded
  }

  /** "Diferença de Custo". */
  function CostDifference(value: real, budgetPct: real, paintCost: real): real {
    PaintBudget(value, budgetPct) - paintCost
  }

  /** "Percentual de Cobertura": affordable gallons as a percentage of needed gallons. */
  function CoveragePercent(value: real, budgetPct: real, costPerGallon: real, gallonsNeeded: real): (pct: real)
    requires costPerGallon != 0.0 && gallonsNeeded != 0.0
    ensures pct * gallonsNeeded == AffordableGallons(value, budgetPct, costPerGallon) * 100.0
  {
    AffordableGallons(value, budgetPct, costPerGallon) / gallonsNeeded * 100.0
  }

  /** The green/red colour of each difference agrees with its alert box. */
  lemma DifferenceColoursMatchAlerts(value: real, budgetPct: real, costPerGallon: real,
                                     gallonsNeeded: real, paintCost: real)
    requires costPerGallon != 0.0
    ensures Sufficient(value, budgetPct, paintCost) <==> CostDifference(value, budgetPct, paintCost) >= 0.0
    ensures Surplus(value, budgetPct, costPerGallon, gallonsNeeded)
            <==> GallonDifference(value, budgetPct, costPerGallon, gallonsNeeded) >= 0.0
  {
  }

  /** With a positive need, the coverage percentage is green exactly when the budget is in surplus. */
  lemma CoverageGreenIffSurplus(value: real, budgetPct: real, costPerGallon: real, gallonsNeeded: real)
    requires costPerGallon != 0.0 && gallonsNeeded > 0.0
    ensures CoveragePercent(value, budgetPct, costPerGallon, gallonsNeeded) >= 100.0
            <==> Surplus(value, budgetPct, costPerGallon, gallonsNeeded)
  {
    var a := AffordableGallons(value, budgetPct, costPerGallon);
    var pct := CoveragePercent(value, budgetPct, costPerGallon, gallonsNeeded);
    assert pct * gallonsNeeded == a * 100.0;
    if pct >= 100.0 {
      assert pct * gallonsNeeded >= 100.0 * gallonsNeeded;
    } else {
      assert pct * gallonsNeeded < 100.0 * gallonsNeeded;
    }
  }

  /**
   * When the paint cost is the needed gallons at the going price and the price
   * is positive, the two alert boxes always agree.
   */
  lemma SufficientIffSurplus(value: real, budgetPct: real, costPerGallon: real, gallonsNeeded: real)
    requires costPerGallon > 0.0
    ensures Sufficient(value, budgetPct, gallonsNeeded * costPerGallon)
            <==> Surplus(value, budgetPct, costPerGallon, gallonsNeeded)
  {
    var a := AffordableGallons(value, budgetPct, costPerGallon);
    assert a * costPerGallon == PaintBudget(value, budgetPct);
    if gallonsNeeded <= a {
      assert gallonsNeeded * costPerGallon <= a * costPerGallon;
    } else {
      assert gallonsNeeded * costPerGallon > a * costPerGallon;
    }
  }

  /** Both agreements at once, for a paint cost known to be the gallons at the price. */
  lemma BoxesAgree(value: real, budgetPct: real, costPerGallon: real, gallonsNeeded: real, paintCost: real)
    requires costPerGallon > 0.0 && paintCost == gallonsNeeded * costPerGallon
    ensures Sufficient(value, budgetPct, paintCost) <==> Surplus(value, budgetPct, costPerGallon, gallonsNeeded)
    ensures gallonsNeeded > 0.0 ==>
      (CoveragePercent(value, budgetPct, costPerGallon, gallonsNeeded) >= 100.0
       <==> Surplus(value, budgetPct, costPerGallon, gallonsNeeded))
  {
    SufficientIffSurplus(value, budgetPct, costPerGallon, gallonsNeeded);
    if gallonsNeeded > 0.0 {
      CoverageGreenIffSurplus(value, budgetPct, costPerGallon, gallonsNeeded);
    }
  }

  /** A cost that exactly equals the budget puts both boxes in the green, with no cost difference. */
  lemma BoundaryBothGreen(value: real, budgetPct: real, costPerGallon: real, gallonsNeeded: real)
    requires costPerGallon > 0.0
    requires gallonsNeeded * costPerGallon == PaintBudget(value, budgetPct)
    ensures CostDifference(value, budgetPct, gallonsNeeded * costPerGallon) == 0.0
    ensures Sufficient(value, budgetPct, gallonsNeeded * costPerGallon)
    ensures Surplus(value, budgetPct, costPerGallon, gallonsNeeded)
  {
    SufficientIffSurplus(value, budgetPct, costPerGallon, gallonsNeeded);
  }

  // ---------------------------------------------------------------- commissions

  /** "Total Comissões": the sales commission plus the project manager's. */
  function TotalCommissions(value: real, salesPct: real, pmPct: real): (c: real)
    ensures c == value * (salesPct + pmPct) / 100.0
    ensures c == PercentOf(value, salesPct) + PercentOf(value, pmPct)
  {
    (value * salesPct / 100.0) + (value * pmPct / 100.0)
  }

  // ---------------------------------------------------------------- margin status

  datatype Colour = Green | Red

  /** `getProgressColor(actual, target)`; `getStatusIcon` makes the same comparison. */
  function ProgressColour(actual: real, target: real): (c: Colour)
    ensures c == Green <==> actual <= target
  {
    if actual <= target then Green else Red
  }

  /** "Profit Target Met" (otherwise "Below Target"). */
  predicate TargetMet(actualMargin: real, targetMargin: real) {
    actualMargin >= targetMargin
  }

  /**
   * Both helpers are called as (target, actual), so the bar, the icon and the
   * label agree: green exactly when the target is met.
   */
  lemma MarginIndicatorsAgree(actualMargin: real, targetMargin: real)
    ensures ProgressColour(targetMargin, actualMargin) == Green <==> TargetMet(actualMargin, targetMargin)
  {
  }

  /** Width of the margin bar: the share of the target reached, capped at 100. */
  function MarginBarWidth(actualMargin: real, targetMargin: real): (w: real)
    requires targetMargin != 0.0
    ensures w <= 100.0
    ensures w == 100.0 <==> actualMargin / targetMargin >= 1.0
    ensures actualMargin / targetMargin < 1.0 ==> w == (actualMargin / targetMargin) * 100.0
  {
    var share := (actualMargin / targetMargin) * 100.0;
    if share < 100.0 then share else 100.0
  }

  /** The negative-margin alert. */
  predicate NegativeMarginAlert(actualMargin: real) {
    actualMargin < 0.0
  }

  /** On the exterior figures the alert appears exactly when more than the whole job is subcontracted. */
  lemma ExteriorNegativeMarginIffOversubcontracted(p: Exterior.ProjectData)
    requires Exterior.DivisorsNonZero(p)
    ensures NegativeMarginAlert(Exterior.CalculateValues(p).actualMarginPercentage)
            <==> p.subcontractPercentage > 100.0
  {
  }

  /** On the exterior figures the budget boxes agree whenever paint has a positive price. */
  lemma ExteriorBudgetBoxesAgree(p: Exterior.ProjectData)
    requires Exterior.DivisorsNonZero(p) && p.paintCostPerGallon > 0.0
    ensures var v := Exterior.CalculateValues(p);
      Sufficient(v.totalCostBySq, p.paintBudgetPercentage, v.totalPaintCost)
      <==> Surplus(v.totalCostBySq, p.paintBudgetPercentage, p.paintCostPerGallon, v.gallonsNeeded)
  {
    var v := Exterior.CalculateValues(p);
    SufficientIffSurplus(v.totalCostBySq, p.paintBudgetPercentage, p.paintCostPerGallon, v.gallonsNeeded);
  }
}
