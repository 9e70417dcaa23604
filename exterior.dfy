/**
 * The exterior estimator of the dashboard: the project record, its keyed
 * update, the `calculateValues` chain and the trend arrows of the metric cards.
 *
 * The chain divides without any guard, so every divisor is a precondition here
 * (a zero divisor gives `NaN` or `Infinity` in the running program).
 */
module Exterior {
  import opened Wrappers

  /** The keys of `ProjectData`. */
  datatype Field =
    | PricePerSq | SquareFootage | HourlyRateWithMaterials | NumPainters | HoursPerDay
    | PaintCoverage | NumberOfCoats | PaintCostPerGallon | TargetMaterialPercentage
    | TargetMarginPercentage | SubcontractPercentage | SubHourlyRate | SubNumPainters
    | SubHoursPerDay | SalesCommissionPercentage | PmCommissionPercentage | PaintBudgetPercentage

  datatype ProjectData = ProjectData(
    pricePerSq: real,
    squareFootage: real,
    hourlyRateWithMaterials: real,
    numPainters: real,
    hoursPerDay: real,
    paintCoverage: real,
    numberOfCoats: real,
    paintCostPerGallon: real,
    targetMaterialPercentage: real,
    targetMarginPercentage: real,
    subcontractPercentage: real,
    subHourlyRate: real,
    subNumPainters: real,
    subHoursPerDay: real,
    salesCommissionPercentage: real,
    pmCommissionPercentage: real,
    paintBudgetPercentage: real)

  datatype CalculatedValues = CalculatedValues(
    totalCostBySq: real,
    totalServiceHours: real,
    workDaysToComplete: real,
    gallonsNeeded: real,
    totalPaintCost: real,
    grossProfit: real,
    actualMarginPercentage: real,
    actualMaterialPercentage: real,
    subcontractValue: real,
    subcontractDays: real)

  /** `projectData[key]`. */
  function Get(p: ProjectData, f: Field): real {
    match f
    case PricePerSq => p.pricePerSq
    case SquareFootage => p.squareFootage
    case HourlyRateWithMaterials => p.hourlyRateWithMaterials
    case NumPainters => p.numPainters
    case HoursPerDay => p.hoursPerDay
    case PaintCoverage => p.paintCoverage
    case NumberOfCoats => p.numberOfCoats
    case PaintCostPerGallon => p.paintCostPerGallon
    case TargetMaterialPercentage => p.targetMaterialPercentage
    case TargetMarginPercentage => p.targetMarginPercentage
    case SubcontractPercentage => p.subcontractPercentage
    case SubHourlyRate => p.subHourlyRate
    case SubNumPainters => p.subNumPainters
    case SubHoursPerDay => p.subHoursPerDay
    case SalesCommissionPercentage => p.salesCommissionPercentage
    case PmCommissionPercentage => p.pmCommissionPercentage
    case PaintBudgetPercentage => p.paintBudgetPercentage
  }

  function Pick(updates: map<Field, real>, f: Field, otherwise: real): real {
    if f in updates then updates[f] else otherwise
  }

  /** `{ ...prev, ...updates }`: the keys in `updates` are overridden, every other field is kept. */
  function UpdateProjectData(prev: ProjectData, updates: map<Field, real>): (r: ProjectData)
    ensures forall f :: Get(r, f) == if f in updates then updates[f] else Get(prev, f)
  {
    ProjectData(
      Pick(updates, PricePerSq, prev.pricePerSq),
      Pick(updates, SquareFootage, prev.squareFootage),
      Pick(updates, HourlyRateWithMaterials, prev.hourlyRateWithMaterials),
      Pick(updates, NumPainters, prev.numPainters),
      Pick(updates, HoursPerDay, prev.hoursPerDay),
      Pick(updates, PaintCoverage, prev.paintCoverage),
      Pick(updates, NumberOfCoats, prev.numberOfCoats),
      Pick(updates, PaintCostPerGallon, prev.paintCostPerGallon),
      Pick(updates, TargetMaterialPercentage, prev.targetMaterialPercentage),
      Pick(updates, TargetMarginPercentage, prev.targetMarginPercentage),
      Pick(updates, SubcontractPercentage, prev.subcontractPercentage),
      Pick(updates, SubHourlyRate, prev.subHourlyRate),
      Pick(updates, SubNumPainters, prev.subNumPainters),
      Pick(updates, SubHoursPerDay, prev.subHoursPerDay),
      Pick(updates, SalesCommissionPercentage, prev.salesCommissionPercentage),
      Pick(updates, PmCommissionPercentage, prev.pmCommissionPercentage),
      Pick(updates, PaintBudgetPercentage, prev.paintBudgetPercentage))
  }

  /** Two records that agree on every key are the same record. */
  lemma FieldsDetermineRecord(p: ProjectData, q: ProjectData)
    requires forall f :: Get(p, f) == Get(q, f)
    ensures p == q
  {
    assert Get(p, PricePerSq) == Get(q, PricePerSq);
    assert Get(p, SquareFootage) == Get(q, SquareFootage);
    assert Get(p, HourlyRateWithMaterials) == Get(q, HourlyRateWithMaterials);
    assert Get(p, NumPainters) == Get(q, NumPainters);
    assert Get(p, HoursPerDay) == Get(q, HoursPerDay);
    assert Get(p, PaintCoverage) == Get(q, PaintCoverage);
    assert Get(p, NumberOfCoats) == Get(q, NumberOfCoats);
    assert Get(p, PaintCostPerGallon) == Get(q, PaintCostPerGallon);
    assert Get(p, TargetMaterialPercentage) == Get(q, TargetMaterialPercentage);
    assert Get(p, TargetMarginPercentage) == Get(q, TargetMarginPercentage);
    assert Get(p, SubcontractPercentage) == Get(q, SubcontractPercentage);
    assert Get(p, SubHourlyRate) == Get(q, SubHourlyRate);
    assert Get(p, SubNumPainters) == Get(q, SubNumPainters);
    assert Get(p, SubHoursPerDay) == Get(q, SubHoursPerDay);
    assert Get(p, SalesCommissionPercentage) == Get(q, SalesCommissionPercentage);
    assert Get(p, PmCommissionPercentage) == Get(q, PmCommissionPercentage);
    assert Get(p, PaintBudgetPercentage) == Get(q, PaintBudgetPercentage);
  }

  /** An empty update leaves the record as it was; a repeated update changes nothing more. */
  lemma UpdateProjectDataLaws(prev: ProjectData, updates: map<Field, real>)
    ensures UpdateProjectData(prev, map[]) == prev
    ensures UpdateProjectData(UpdateProjectData(prev, updates), updates) == UpdateProjectData(prev, updates)
  {
    FieldsDetermineRecord(UpdateProjectData(prev, map[]), prev);
    var once := UpdateProjectData(prev, updates);
    FieldsDetermineRecord(UpdateProjectData(once, updates), once);
  }

  /** The divisors `calculateValues` uses; none is checked by the source. */
  predicate DivisorsNonZero(p: ProjectData) {
    && p.hourlyRateWithMaterials != 0.0
    && p.numPainters * p.hoursPerDay != 0.0
    && p.paintCoverage != 0.0
    && p.subHourlyRate * p.subNumPainters * p.subHoursPerDay != 0.0
    && p.pricePerSq * p.squareFootage != 0.0
  }

  /**
   * `calculateValues`. The contract states how the figures fit together: the
   * gross profit subtracts the subcontract value only, so the margin is the
   * complement of the subcontract percentage whatever the paint costs.
   * `ChainMeaning` states what the other figures mean.
   */
  function CalculateValues(p: ProjectData): (v: CalculatedValues)
    requires DivisorsNonZero(p)
    ensures v.totalCostBySq == p.pricePerSq * p.squareFootage
    ensures v.totalPaintCost == v.gallonsNeeded * p.paintCostPerGallon
    ensures v.grossProfit + v.subcontractValue == v.totalCostBySq
    ensures v.actualMarginPercentage == 100.0 - p.subcontractPercentage
  {
    var totalCostBySq := p.pricePerSq * p.squareFootage;
    var totalServiceHours := totalCostBySq / p.hourlyRateWithMaterials;
    var workDaysToComplete := totalServiceHours / (p.numPainters * p.hoursPerDay);
    var gallonsNeeded := (p.squareFootage / p.paintCoverage) * p.numberOfCoats;
    var totalPaintCost := gallonsNeeded * p.paintCostPerGallon;
    var subcontractValue := totalCostBySq * (p.subcontractPercentage / 100.0);
    var subcontractDays := subcontractValue / (p.subHourlyRate * p.subNumPainters * p.subHoursPerDay);
    var grossProfit := totalCostBySq - subcontractValue;
    var actualMarginPercentage := (grossProfit / totalCostBySq) * 100.0;
    var actualMaterialPercentage := (totalPaintCost / totalCostBySq) * 100.0;
    MarginAlgebra(totalCostBySq, subcontractValue, p.subcontractPercentage);
    CalculatedValues(
      totalCostBySq, totalServiceHours, workDaysToComplete, gallonsNeeded, totalPaintCost,
      grossProfit, actualMarginPercentage, actualMaterialPercentage, subcontractValue, subcontractDays)
  }

  /**
   * What each figure of the chain means: the hours bill the value at the
   * hourly rate, the days spread the hours over the crew, the gallons cover
   * every coat of the area, the subcontract value is its percentage of the
   * value and its days spread it over the subcontract crew's daily rate, and
   * the material percentage is the paint cost's share of the value.
   */
  lemma ChainMeaning(p: ProjectData)
    requires DivisorsNonZero(p)
    ensures var v := CalculateValues(p);
      && v.totalServiceHours * p.hourlyRateWithMaterials == v.totalCostBySq
      && v.workDaysToComplete * (p.numPainters * p.hoursPerDay) == v.totalServiceHours
      && v.gallonsNeeded * p.paintCoverage == p.squareFootage * p.numberOfCoats
      && v.subcontractValue * 100.0 == v.totalCostBySq * p.subcontractPercentage
      && v.subcontractDays * (p.subHourlyRate * p.subNumPainters * p.subHoursPerDay) == v.subcontractValue
      && v.actualMaterialPercentage * v.totalCostBySq == v.totalPaintCost * 100.0
  {
    var v := CalculateValues(p);
    DivTimes(v.totalCostBySq, p.hourlyRateWithMaterials);
    DivTimes(v.totalServiceHours, p.numPainters * p.hoursPerDay);
    GallonsAlgebra(p.squareFootage, p.paintCoverage, p.numberOfCoats);
    PercentAlgebra(v.totalCostBySq, p.subcontractPercentage);
    DivTimes(v.subcontractValue, p.subHourlyRate * p.subNumPainters * p.subHoursPerDay);
    ShareAlgebra(v.totalPaintCost, v.totalCostBySq);
  }

  lemma DivTimes(a: real, b: real)
    requires b != 0.0
    ensures (a / b) * b == a
  {
  }

  lemma GallonsAlgebra(area: real, coverage: real, coats: real)
    requires coverage != 0.0
    ensures ((area / coverage) * coats) * coverage == area * coats
  {
    calc {
      ((area / coverage) * coats) * coverage;
      ((area / coverage) * coverage) * coats;
      { DivTimes(area, coverage); }
      area * coats;
    }
  }

  lemma PercentAlgebra(value: real, pct: real)
    ensures (value * (pct / 100.0)) * 100.0 == value * pct
  {
  }

  lemma ShareAlgebra(part: real, whole: real)
    requires whole != 0.0
    ensures ((part / whole) * 100.0) * whole == part * 100.0
  {
    calc {
      ((part / whole) * 100.0) * whole;
      ((part / whole) * whole) * 100.0;
      { DivTimes(part, whole); }
      part * 100.0;
    }
  }

  lemma MarginAlgebra(value: real, subValue: real, subPct: real)
    requires value != 0.0 && subValue == value * (subPct / 100.0)
    ensures ((value - subValue) / value) * 100.0 == 100.0 - subPct
  {
    var k := 1.0 - subPct / 100.0;
    assert value - subValue == value * k;
    assert (value * k) / value == k;
  }

  /** Changing the paint inputs moves the paint cost but never the margin. */
  lemma MarginIndependentOfPaint(p: ProjectData, coverage: real, coats: real, price: real)
    requires DivisorsNonZero(p) && coverage != 0.0
    ensures var q := p.(paintCoverage := coverage, numberOfCoats := coats, paintCostPerGallon := price);
      CalculateValues(q).actualMarginPercentage == CalculateValues(p).actualMarginPercentage
      && CalculateValues(q).grossProfit == CalculateValues(p).grossProfit
  {
  }

  // ---------------------------------------------------------------- metric cards

  datatype Trend = Up | Down | Neutral

  /** `getTrend`: up when the value meets the target in the better direction. */
  function GetTrend(value: real, target: real, isHigherBetter: bool): (t: Trend)
    ensures t != Neutral
    ensures isHigherBetter ==> (t == Up <==> value >= target)
    ensures !isHigherBetter ==> (t == Up <==> value <= target)
  {
    if isHigherBetter then (if value >= target then Up else Down)
    else (if value <= target then Up else Down)
  }

  datatype Icon = Dollar | Calendar | Percent | Users

  /** One metric card without its formatted value text. */
  datatype MetricCard = MetricCard(title: string, trend: Trend, icon: Icon)

  /** The five cards of `metrics`, in display order. */
  function Metrics(p: ProjectData, v: CalculatedValues): (cards: seq<MetricCard>)
    ensures |cards| == 5
    ensures cards[0].trend == Neutral && cards[2].trend == Neutral && cards[4].trend == Neutral
    ensures cards[1].trend == Up <==> v.actualMarginPercentage >= p.targetMarginPercentage
    ensures cards[3].trend == Up <==> p.targetMaterialPercentage <= v.actualMaterialPercentage
  {
    [ MetricCard("Total Project Value", Neutral, Dollar),
      MetricCard("Gross Profit", GetTrend(v.actualMarginPercentage, p.targetMarginPercentage, true), Dollar),
      MetricCard("Project Timeline", Neutral, Calendar),
      MetricCard("Material Cost", GetTrend(p.targetMaterialPercentage, v.actualMaterialPercentage, false), Percent),
      MetricCard("Subcontract Value", Neutral, Users) ]
  }

  /** On the computed values the Gross Profit card points up iff the subcontract share leaves the target margin. */
  lemma GrossProfitTrendFromSubcontract(p: ProjectData)
    requires DivisorsNonZero(p)
    ensures Metrics(p, CalculateValues(p))[1].trend == Up
            <==> p.subcontractPercentage <= 100.0 - p.targetMarginPercentage
  {
  }
}
