/**
 * The interior estimator: a list of rooms, the loop that accumulates their
 * floor, wall, door, window and trim areas, the paint, labour and price
 * figures derived from those totals, and the edits of the input record and
 * of the room list.
 *
 * `Estimate` is the reference definition (sums over the rooms);
 * `CalculateInteriorPainting` is the accumulating loop, proved equal to it.
 */
module Interior {
  import opened Wrappers
  import Lists
  import Text
  import Budget

  datatype Room = Room(
    id: string,
    name: string,
    length: real,
    width: real,
    floorArea: Option<real>,   // optional override of length × width
    ceilingHeight: real,
    hasBaseboards: bool,
    hasCrownMolding: bool,
    hasChairRail: bool,
    doors: real,
    windows: real
  )

  datatype Inputs = Inputs(
    rooms: seq<Room>,
    paintCoverage: real,
    paintCostPerGallon: real,
    hourlyLaborRate: real,
    numberOfCoats: real,
    ceilingHeight: real,
    profitMarginPercentage: real,
    pricePerSqFt: real,
    paintCeiling: bool,
    paintTrim: bool,
    paintBudgetPercentage: real,
    targetMarginPercentage: real,
    subcontractPercentage: real,
    subHourlyRate: real,
    subNumPainters: real,
    subHoursPerDay: real,
    salesCommissionPercentage: real,
    pmCommissionPercentage: real
  )

  datatype Figures = Figures(
    totalFloorArea: real,
    totalWallArea: real,
    totalCeilingArea: real,
    totalTrimArea: real,
    totalDoorArea: real,
    totalWindowArea: real,
    netWallArea: real,
    totalPaintableArea: real,
    wallPaintGallons: real,
    ceilingPaintGallons: real,
    trimPaintGallons: real,
    totalPaintGallons: real,
    wallPaintCost: real,
    ceilingPaintCost: real,
    trimPaintCost: real,
    totalPaintCost: real,
    estimatedHours: real,
    estimatedDays: int,
    laborCost: real,
    totalProjectCost: real,
    profitMargin: real
  )

  /** The screen's initial room: 0 × 0, baseboards, one door and two windows. */
  const DefaultRoom := Room("1", "Living Room", 0.0, 0.0, None, 8.0, true, false, false, 1.0, 2.0)

  /** The screen's initial inputs: that one room and the stock rates. */
  function DefaultInputs(): Inputs {
    Inputs(
      [DefaultRoom],
      350.0, 45.0, 65.0, 2.0, 8.0, 30.0, 3.5, true, true,
      15.0, 30.0, 0.0, 0.0, 0.0, 0.0, 5.0, 3.0)
  }

  // ---------------------------------------------------------------- rounding

  /** `Math.ceil`. */
  function Ceil(x: real): (n: int)
    ensures (n - 1) as real < x <= n as real
  {
    -((-x).Floor)
  }

  // ---------------------------------------------------------------- one room

  /** `room.floorArea || length × width`: a missing or zero override falls back to the rectangle. */
  function RoomFloorArea(r: Room): (a: real)
    ensures Truthy(r.floorArea) ==> a == r.floorArea.value
    ensures !Truthy(r.floorArea) ==> a == r.length * r.width
  {
    OrDefault(r.floorArea, r.length * r.width)
  }

  function Perimeter(r: Room): real {
    2.0 * (r.length + r.width)
  }

  /** Perimeter times height; the floor-area override plays no part. */
  function RoomWallArea(r: Room): real {
    Perimeter(r) * r.ceilingHeight
  }

  function Doors(r: Room): real { r.doors }

  function Windows(r: Room): real { r.windows }

  /** A standard door is 7 ft × 3 ft. */
  function RoomDoorArea(r: Room): real {
    r.doors * 21.0
  }

  /** An average window is 5 ft × 3 ft. */
  function RoomWindowArea(r: Room): real {
    r.windows * 15.0
  }

  /** 6-inch baseboards, 4-inch crown molding and a 3-inch chair rail, each along the perimeter. */
  function RoomTrimArea(r: Room): (a: real)
    ensures a == Perimeter(r) * ((if r.hasBaseboards then 0.5 else 0.0)
                               + (if r.hasCrownMolding then 0.33 else 0.0)
                               + (if r.hasChairRail then 0.25 else 0.0))
  {
    (if r.hasBaseboards then Perimeter(r) * 0.5 else 0.0)
    + (if r.hasCrownMolding then Perimeter(r) * 0.33 else 0.0)
    + (if r.hasChairRail then Perimeter(r) * 0.25 else 0.0)
  }

  predicate NoTrim(r: Room) {
    !r.hasBaseboards && !r.hasCrownMolding && !r.hasChairRail
  }

  // ---------------------------------------------------------------- sums over rooms

  /** The sum of `f` over the rooms, accumulated from the first to the last. */
  function Sum(rooms: seq<Room>, f: Room -> real): real
    decreases |rooms|
  {
    if rooms == [] then 0.0 else Sum(rooms[..|rooms| - 1], f) + f(rooms[|rooms| - 1])
  }

  lemma {:induction false} SumAppend(a: seq<Room>, b: seq<Room>, f: Room -> real)
    ensures Sum(a + b, f) == Sum(a, f) + Sum(b, f)
    decreases |b|
  {
    if b == [] {
      assert a + b == a;
    } else {
      SumAppend(a, b[..|b| - 1], f);
      assert (a + b)[..|a + b| - 1] == a + b[..|b| - 1];
    }
  }

  /** Lists that agree room by room under `f` and `g` have the same sums. */
  lemma {:induction false} SumPointwise(a: seq<Room>, b: seq<Room>, f: Room -> real, g: Room -> real)
    requires |a| == |b|
    requires forall i :: 0 <= i < |a| ==> f(a[i]) == g(b[i])
    ensures Sum(a, f) == Sum(b, g)
    decreases |a|
  {
    if a != [] {
      SumPointwise(a[..|a| - 1], b[..|b| - 1], f, g);
    }
  }

  lemma {:induction false} SumScale(rooms: seq<Room>, f: Room -> real, g: Room -> real, c: real)
    requires forall i :: 0 <= i < |rooms| ==> f(rooms[i]) == c * g(rooms[i])
    ensures Sum(rooms, f) == c * Sum(rooms, g)
    decreases |rooms|
  {
    if rooms != [] {
      SumScale(rooms[..|rooms| - 1], f, g, c);
    }
  }

  lemma {:induction false} SumZero(rooms: seq<Room>, f: Room -> real)
    requires forall i :: 0 <= i < |rooms| ==> f(rooms[i]) == 0.0
    ensures Sum(rooms, f) == 0.0
    decreases |rooms|
  {
    if rooms != [] {
      SumZero(rooms[..|rooms| - 1], f);
    }
  }

  /** Extending a prefix by one room adds that room's figure. */
  lemma SumStep(rooms: seq<Room>, i: nat, f: Room -> real)
    requires i < |rooms|
    ensures Sum(rooms[..i + 1], f) == Sum(rooms[..i], f) + f(rooms[i])
  {
    assert rooms[..i + 1][..i] == rooms[..i];
  }

  /** A one-room list sums to that room's figure. */
  lemma SumSingle(r: Room, f: Room -> real)
    ensures Sum([r], f) == f(r)
  {
    assert [r][..0] == [];
  }

  // ---------------------------------------------------------------- the estimate

  /** The six totals the loop over the rooms accumulates. */
  datatype Areas = Areas(floor: real, wall: real, ceiling: real, trim: real, door: real, window: real)

  function RoomTotals(rooms: seq<Room>): Areas {
    Areas(Sum(rooms, RoomFloorArea), Sum(rooms, RoomWallArea), Sum(rooms, RoomFloorArea),
          Sum(rooms, RoomTrimArea), Sum(rooms, RoomDoorArea), Sum(rooms, RoomWindowArea))
  }

  /** The net wall area plus the ceilings and the trim when they are painted. */
  function PaintableArea(inp: Inputs, a: Areas): real {
    (a.wall - a.door - a.window) + (if inp.paintCeiling then a.ceiling else 0.0)
    + (if inp.paintTrim then a.trim else 0.0)
  }

  /** The chain of constants that follows the loop, from the six totals and the paintable area. */
  function FiguresFrom(inp: Inputs, a: Areas, paintable: real): Figures
    requires inp.paintCoverage != 0.0
  {
    var net := a.wall - a.door - a.window;
    var wallGallons := (net * inp.numberOfCoats) / inp.paintCoverage;
    var ceilingGallons := if inp.paintCeiling then (a.ceiling * inp.numberOfCoats) / inp.paintCoverage else 0.0;
    var trimGallons := if inp.paintTrim then (a.trim * inp.numberOfCoats) / inp.paintCoverage else 0.0;
    var hours := paintable / 100.0;
    var projectCost := a.floor * inp.pricePerSqFt;
    Figures(
      a.floor, a.wall, a.ceiling, a.trim, a.door, a.window, net, paintable,
      wallGallons, ceilingGallons, trimGallons, wallGallons + ceilingGallons + trimGallons,
      wallGallons * inp.paintCostPerGallon, ceilingGallons * inp.paintCostPerGallon,
      trimGallons * inp.paintCostPerGallon,
      wallGallons * inp.paintCostPerGallon + ceilingGallons * inp.paintCostPerGallon
        + trimGallons * inp.paintCostPerGallon,
      hours, Ceil(hours / 8.0), hours * inp.hourlyLaborRate,
      projectCost, projectCost * (inp.profitMarginPercentage / 100.0))
  }

  /** What `calculateInteriorPainting` stores, written over sums of the per-room figures. */
  function Estimate(inp: Inputs): Figures
    requires inp.paintCoverage != 0.0
  {
    var a := RoomTotals(inp.rooms);
    FiguresFrom(inp, a, PaintableArea(inp, a))
  }

  /** The six totals after one more room. */
  function WithRoom(a: Areas, room: Room): Areas {
    Areas(a.floor + RoomFloorArea(room), a.wall + RoomWallArea(room), a.ceiling + RoomFloorArea(room),
          a.trim + RoomTrimArea(room), a.door + RoomDoorArea(room), a.window + RoomWindowArea(room))
  }

  /** The totals of a longer prefix are those of the shorter one with the next room added. */
  lemma RoomTotalsStep(rooms: seq<Room>, i: nat)
    requires i < |rooms|
    ensures RoomTotals(rooms[..i + 1]) == WithRoom(RoomTotals(rooms[..i]), rooms[i])
  {
    SumStep(rooms, i, RoomFloorArea);
    SumStep(rooms, i, RoomWallArea);
    SumStep(rooms, i, RoomTrimArea);
    SumStep(rooms, i, RoomDoorArea);
    SumStep(rooms, i, RoomWindowArea);
  }

  /** One pass of the loop body: the room's figures added to the running totals. */
  method AccumulateRoom(totals: Areas, room: Room) returns (next: Areas)
    ensures next == WithRoom(totals, room)
  {
    var floorArea := if Truthy(room.floorArea) then room.floorArea.value else room.length * room.width;
    var totalFloorArea := totals.floor + floorArea;
    var totalCeilingArea := totals.ceiling + floorArea;

    var perimeter := 2.0 * (room.length + room.width);
    var wallArea := perimeter * room.ceilingHeight;
    var totalWallArea := totals.wall + wallArea;

    var doorArea := room.doors * 21.0;
    var windowArea := room.windows * 15.0;
    var totalDoorArea := totals.door + doorArea;
    var totalWindowArea := totals.window + windowArea;

    var totalTrimArea := totals.trim;
    if room.hasBaseboards {
      totalTrimArea := totalTrimArea + perimeter * 0.5;
    }
    if room.hasCrownMolding {
      totalTrimArea := totalTrimArea + perimeter * 0.33;
    }
    if room.hasChairRail {
      totalTrimArea := totalTrimArea + perimeter * 0.25;
    }
    next := Areas(totalFloorArea, totalWallArea, totalCeilingArea, totalTrimArea, totalDoorArea, totalWindowArea);
  }

  /** The loop over the rooms: each of the six totals is the sum of its per-room figure. */
  method AccumulateRooms(rooms: seq<Room>) returns (a: Areas)
    ensures a == RoomTotals(rooms)
  {
    a := Areas(0.0, 0.0, 0.0, 0.0, 0.0, 0.0);
    var i := 0;
    while i < |rooms|
      invariant 0 <= i <= |rooms|
      invariant a == RoomTotals(rooms[..i])
    {
      RoomTotalsStep(rooms, i);
      a := AccumulateRoom(a, rooms[i]);
      i := i + 1;
    }
    assert rooms[..i] == rooms;
  }

  /**
   * `calculateInteriorPainting`: the loop over the rooms, the paintable area
   * built up by the two optional surfaces, then the chain of constants.
   */
  method CalculateInteriorPainting(inp: Inputs) returns (v: Figures)
    requires inp.paintCoverage != 0.0
    ensures v == Estimate(inp)
  {
    var totals := AccumulateRooms(inp.rooms);
    var netWallArea := totals.wall - totals.door - totals.window;
    var totalPaintableArea := netWallArea;
    if inp.paintCeiling {
      totalPaintableArea := totalPaintableArea + totals.ceiling;
    }
    if inp.paintTrim {
      totalPaintableArea := totalPaintableArea + totals.trim;
    }
    v := FiguresFrom(inp, totals, totalPaintableArea);
  }

  // ---------------------------------------------------------------- properties of the estimate

  /** The ceiling area is the floor area, override included. */
  lemma CeilingEqualsFloor(inp: Inputs)
    requires inp.paintCoverage != 0.0
    ensures Estimate(inp).totalCeilingArea == Estimate(inp).totalFloorArea
    ensures Estimate(inp).totalFloorArea == Sum(inp.rooms, RoomFloorArea)
  {
  }

  /** Door and window areas are 21 and 15 square feet per opening; the net wall area is not clamped. */
  lemma OpeningAreas(inp: Inputs)
    requires inp.paintCoverage != 0.0
    ensures Estimate(inp).totalDoorArea == 21.0 * Sum(inp.rooms, Doors)
    ensures Estimate(inp).totalWindowArea == 15.0 * Sum(inp.rooms, Windows)
    ensures Estimate(inp).netWallArea
            == Estimate(inp).totalWallArea - 21.0 * Sum(inp.rooms, Doors) - 15.0 * Sum(inp.rooms, Windows)
  {
    SumScale(inp.rooms, RoomDoorArea, Doors, 21.0);
    SumScale(inp.rooms, RoomWindowArea, Windows, 15.0);
  }

  /** Without any trim flag on any room the trim area, and so the trim paint, is zero. */
  lemma NoTrimFlagsNoTrim(inp: Inputs)
    requires inp.paintCoverage != 0.0
    requires forall i :: 0 <= i < |inp.rooms| ==> NoTrim(inp.rooms[i])
    ensures Estimate(inp).totalTrimArea == 0.0
    ensures Estimate(inp).trimPaintGallons == 0.0
  {
    SumZero(inp.rooms, RoomTrimArea);
  }

  /**
   * Ceiling and trim gallons are zero when their surface is not painted, so the
   * gallons cover exactly the paintable area at the chosen number of coats.
   */
  lemma GallonsCoverPaintableArea(inp: Inputs)
    requires inp.paintCoverage != 0.0
    ensures var v := Estimate(inp);
      v.totalPaintableArea == v.netWallArea + (if inp.paintCeiling then v.totalCeilingArea else 0.0)
                              + (if inp.paintTrim then v.totalTrimArea else 0.0)
    ensures var v := Estimate(inp);
      v.totalPaintGallons * inp.paintCoverage == v.totalPaintableArea * inp.numberOfCoats
  {
    var a := RoomTotals(inp.rooms);
    GallonsFromPaintable(inp, a, PaintableArea(inp, a));
  }

  /** The gallons of the chain cover the paintable area it is given, for any totals. */
  lemma GallonsFromPaintable(inp: Inputs, a: Areas, paintable: real)
    requires inp.paintCoverage != 0.0 && paintable == PaintableArea(inp, a)
    ensures var v := FiguresFrom(inp, a, paintable);
      v.totalPaintGallons * inp.paintCoverage == v.totalPaintableArea * inp.numberOfCoats
  {
    var v := FiguresFrom(inp, a, paintable);
    var cov := inp.paintCoverage;
    var coats := inp.numberOfCoats;
    var c := if inp.paintCeiling then a.ceiling else 0.0;
    var t := if inp.paintTrim then a.trim else 0.0;
    assert v.wallPaintGallons * cov == v.netWallArea * coats;
    assert v.ceilingPaintGallons * cov == c * coats;
    assert v.trimPaintGallons * cov == t * coats;
    calc {
      v.totalPaintGallons * cov;
      v.wallPaintGallons * cov + v.ceilingPaintGallons * cov + v.trimPaintGallons * cov;
      v.netWallArea * coats + c * coats + t * coats;
      (v.netWallArea + c + t) * coats;
    }
  }

  /** The paint cost is the total gallons at the price per gallon. */
  lemma PaintCostIsGallonsTimesPrice(inp: Inputs)
    requires inp.paintCoverage != 0.0
    ensures Estimate(inp).totalPaintCost == Estimate(inp).totalPaintGallons * inp.paintCostPerGallon
  {
    var v := Estimate(inp);
    var p := inp.paintCostPerGallon;
    calc {
      v.totalPaintCost;
      v.wallPaintGallons * p + v.ceilingPaintGallons * p + v.trimPaintGallons * p;
      (v.wallPaintGallons + v.ceilingPaintGallons + v.trimPaintGallons) * p;
    }
  }

  /** Hours are paintable area over 100; days round hours over 8 up. */
  lemma DaysBoundHours(inp: Inputs)
    requires inp.paintCoverage != 0.0
    ensures Estimate(inp).estimatedHours * 100.0 == Estimate(inp).totalPaintableArea
    ensures 8.0 * (Estimate(inp).estimatedDays as real - 1.0) < Estimate(inp).estimatedHours
    ensures Estimate(inp).estimatedHours <= 8.0 * Estimate(inp).estimatedDays as real
  {
  }

  /**
   * The price and the "profit" come from the floor area and two percentages only:
   * changing any paint or labour input leaves both unchanged.
   */
  lemma PriceIgnoresPaintAndLabour(inp: Inputs, coverage: real, costPerGallon: real, laborRate: real,
                                   coats: real, paintCeiling: bool, paintTrim: bool)
    requires inp.paintCoverage != 0.0 && coverage != 0.0
    ensures var other := inp.(paintCoverage := coverage, paintCostPerGallon := costPerGallon,
                              hourlyLaborRate := laborRate, numberOfCoats := coats,
                              paintCeiling := paintCeiling, paintTrim := paintTrim);
      Estimate(other).totalProjectCost == Estimate(inp).totalProjectCost
      && Estimate(other).profitMargin == Estimate(inp).profitMargin
    ensures Estimate(inp).totalProjectCost == Sum(inp.rooms, RoomFloorArea) * inp.pricePerSqFt
    ensures Estimate(inp).profitMargin
            == Sum(inp.rooms, RoomFloorArea) * inp.pricePerSqFt * inp.profitMarginPercentage / 100.0
  {
    var other := inp.(paintCoverage := coverage, paintCostPerGallon := costPerGallon,
                      hourlyLaborRate := laborRate, numberOfCoats := coats,
                      paintCeiling := paintCeiling, paintTrim := paintTrim);
    PriceFigures(inp);
    PriceFigures(other);
  }

  /** The price and the "profit" of one estimate, from the floor-area sum. */
  lemma PriceFigures(inp: Inputs)
    requires inp.paintCoverage != 0.0
    ensures Estimate(inp).totalProjectCost == Sum(inp.rooms, RoomFloorArea) * inp.pricePerSqFt
    ensures Estimate(inp).profitMargin
            == Sum(inp.rooms, RoomFloorArea) * inp.pricePerSqFt * inp.profitMarginPercentage / 100.0
  {
    var c := Sum(inp.rooms, RoomFloorArea) * inp.pricePerSqFt;
    assert Estimate(inp).totalProjectCost == c;
    assert Estimate(inp).profitMargin == c * (inp.profitMarginPercentage / 100.0);
    assert c * (inp.profitMarginPercentage / 100.0) == c * inp.profitMarginPercentage / 100.0;
  }

  /** With a positive price, the "Lucro" label appears exactly when the margin percentage is not negative. */
  lemma ProfitSignFollowsPercentage(inp: Inputs)
    requires inp.paintCoverage != 0.0
    requires Estimate(inp).totalProjectCost > 0.0
    ensures Estimate(inp).profitMargin >= 0.0 <==> inp.profitMarginPercentage >= 0.0
  {
    var c := Estimate(inp).totalProjectCost;
    var q := inp.profitMarginPercentage / 100.0;
    assert Estimate(inp).profitMargin == c * q;
    if q >= 0.0 {
      assert c * q >= 0.0;
    } else {
      assert c * q < 0.0;
    }
  }

  /**
   * On the interior figures the "suficiente" and "excedente" boxes agree
   * whenever paint has a positive price, and with a positive need the coverage
   * percentage is green exactly when the budget is in surplus.
   */
  lemma InteriorBudgetBoxesAgree(inp: Inputs)
    requires inp.paintCoverage != 0.0 && inp.paintCostPerGallon > 0.0
    ensures var v := Estimate(inp);
      Budget.Sufficient(v.totalProjectCost, inp.paintBudgetPercentage, v.totalPaintCost)
      <==> Budget.Surplus(v.totalProjectCost, inp.paintBudgetPercentage, inp.paintCostPerGallon, v.totalPaintGallons)
    ensures var v := Estimate(inp);
      v.totalPaintGallons > 0.0 ==>
        (Budget.CoveragePercent(v.totalProjectCost, inp.paintBudgetPercentage, inp.paintCostPerGallon, v.totalPaintGallons) >= 100.0
         <==> Budget.Surplus(v.totalProjectCost, inp.paintBudgetPercentage, inp.paintCostPerGallon, v.totalPaintGallons))
  {
    var v := Estimate(inp);
    PaintCostIsGallonsTimesPrice(inp);
    Budget.BoxesAgree(v.totalProjectCost, inp.paintBudgetPercentage, inp.paintCostPerGallon,
                      v.totalPaintGallons, v.totalPaintCost);
  }

  /** A 0 × 0 room without a floor-area override has only its door and window areas. */
  lemma EmptyRoomAreas(r: Room)
    requires r.length == 0.0 && r.width == 0.0 && r.floorArea.None?
    ensures RoomFloorArea(r) == 0.0 && RoomWallArea(r) == 0.0 && RoomTrimArea(r) == 0.0
    ensures RoomDoorArea(r) == 21.0 * r.doors && RoomWindowArea(r) == 15.0 * r.windows
  {
  }

  /** The six totals of the initial room list. */
  lemma DefaultTotals()
    ensures RoomTotals(DefaultInputs().rooms) == Areas(0.0, 0.0, 0.0, 0.0, 21.0, 30.0)
  {
    var r := DefaultRoom;
    EmptyRoomAreas(r);
    SumSingle(r, RoomFloorArea);
    SumSingle(r, RoomWallArea);
    SumSingle(r, RoomTrimArea);
    SumSingle(r, RoomDoorArea);
    SumSingle(r, RoomWindowArea);
  }

  /** The initial screen has one 0 × 0 room with a door and two windows: its net wall area is negative. */
  lemma DefaultNetWallAreaNegative()
    ensures Estimate(DefaultInputs()).netWallArea == -51.0
    ensures Estimate(DefaultInputs()).totalPaintableArea == -51.0
  {
    DefaultTotals();
    var inp := DefaultInputs();
    assert PaintableArea(inp, RoomTotals(inp.rooms)) == -51.0;
  }

  // ---------------------------------------------------------------- the other panels

  /** "Subcontract Value". */
  function SubcontractValue(inp: Inputs, v: Figures): (x: real)
    ensures x * 100.0 == v.totalProjectCost * inp.subcontractPercentage
  {
    Budget.PercentOf(v.totalProjectCost, inp.subcontractPercentage)
  }

  /** The subcontracted share of the estimated hours. */
  function SubHours(inp: Inputs, v: Figures): real {
    (v.totalPaintableArea / 100.0) * (inp.subcontractPercentage / 100.0)
  }

  /** "Sub Days": the subcontracted hours over the sub's hours per day, rounded up. */
  function SubDays(inp: Inputs, v: Figures): (d: int)
    requires inp.subHoursPerDay != 0.0
    ensures (d - 1) as real < SubHours(inp, v) / inp.subHoursPerDay <= d as real
  {
    Ceil(SubHours(inp, v) / inp.subHoursPerDay)
  }

  /** With positive hours per day, the days are the fewest whole days that hold the subcontracted hours. */
  lemma SubDaysHoldSubHours(inp: Inputs, v: Figures)
    requires inp.subHoursPerDay > 0.0
    ensures (SubDays(inp, v) as real - 1.0) * inp.subHoursPerDay < SubHours(inp, v)
    ensures SubHours(inp, v) <= SubDays(inp, v) as real * inp.subHoursPerDay
  {
    var d := SubDays(inp, v) as real;
    var h := inp.subHoursPerDay;
    var q := SubHours(inp, v) / h;
    assert q * h == SubHours(inp, v);
    assert (d - 1.0) * h < q * h;
    assert q * h <= d * h;
  }

  /** "Total Comissões" on the interior price. */
  function InteriorCommissions(inp: Inputs, v: Figures): (c: real)
    ensures c == v.totalProjectCost * (inp.salesCommissionPercentage + inp.pmCommissionPercentage) / 100.0
  {
    Budget.TotalCommissions(v.totalProjectCost, inp.salesCommissionPercentage, inp.pmCommissionPercentage)
  }

  /**
   * What the interior margin panel shows: whether the bar, the icon and the
   * label read "met", the bar's width (`None` for the NaN or -Infinity width
   * a zero target gives a zero or negative margin) and whether the
   * negative-margin alert appears.
   */
  datatype MarginPanel = MarginPanel(met: bool, width: Option<real>, negativeAlert: bool)

  /**
   * The panel compares the entered margin percentage with the target and with
   * 0; the bar's width is the share of the target, capped at 100. Against a
   * zero target a positive margin's share is +Infinity, so the bar is full;
   * a zero or negative margin gives NaN or -Infinity, and no width.
   */
  function InteriorMarginPanel(inp: Inputs): (m: MarginPanel)
    ensures m.met <==> inp.profitMarginPercentage >= inp.targetMarginPercentage
    ensures m.negativeAlert <==> inp.profitMarginPercentage < 0.0
    ensures m.width.None? <==> inp.targetMarginPercentage == 0.0 && inp.profitMarginPercentage <= 0.0
    ensures inp.targetMarginPercentage != 0.0 ==>
      m.width == Some(Budget.MarginBarWidth(inp.profitMarginPercentage, inp.targetMarginPercentage))
    ensures inp.targetMarginPercentage == 0.0 && inp.profitMarginPercentage > 0.0 ==> m.width == Some(100.0)
    ensures m.width.Some? ==> m.width.value <= 100.0
  {
    var p := inp.profitMarginPercentage;
    var t := inp.targetMarginPercentage;
    var width := if t != 0.0 then Some(Budget.MarginBarWidth(p, t))
                 else if p > 0.0 then Some(100.0)
                 else None;
    MarginPanel(p >= t, width, p < 0.0)
  }

  /**
   * The panel reads two inputs only: the rooms, the prices, the paint and
   * labour inputs and every computed figure leave it unchanged.
   */
  lemma MarginPanelIgnoresEstimate(inp: Inputs, other: Inputs)
    requires other.profitMarginPercentage == inp.profitMarginPercentage
    requires other.targetMarginPercentage == inp.targetMarginPercentage
    ensures InteriorMarginPanel(other) == InteriorMarginPanel(inp)
  {
  }

  /**
   * With a positive target the bar is full exactly when the target is met and
   * a negative margin is never met; with a negative target a met margin can
   * show a bar of any width below 100 (a negative share).
   */
  lemma MarginPanelAgrees(inp: Inputs)
    ensures var m := InteriorMarginPanel(inp);
      inp.targetMarginPercentage > 0.0 ==>
        (m.met <==> m.width == Some(100.0)) && (m.negativeAlert ==> !m.met)
    ensures var m := InteriorMarginPanel(inp);
      inp.targetMarginPercentage < 0.0 && inp.profitMarginPercentage > 0.0 ==>
        m.met && m.width.Some? && m.width.value < 0.0
  {
    var p := inp.profitMarginPercentage;
    var t := inp.targetMarginPercentage;
    if t > 0.0 {
      ShareAtLeastOne(p, t);
    } else if t < 0.0 && p > 0.0 {
      assert p / t < 0.0;
    }
  }

  lemma ShareAtLeastOne(p: real, t: real)
    requires t > 0.0
    ensures p / t >= 1.0 <==> p >= t
  {
    assert (p / t) * t == p;
    if p / t >= 1.0 {
      assert (p / t) * t >= 1.0 * t;
    } else {
      assert (p / t) * t < 1.0 * t;
    }
  }

  // ---------------------------------------------------------------- editing the inputs

  /** `Partial<InteriorCalculatorInputs>`: each present field replaces the current one. */
  datatype InputsPatch = InputsPatch(
    rooms: Option<seq<Room>>,
    paintCoverage: Option<real>,
    paintCostPerGallon: Option<real>,
    hourlyLaborRate: Option<real>,
    numberOfCoats: Option<real>,
    ceilingHeight: Option<real>,
    profitMarginPercentage: Option<real>,
    pricePerSqFt: Option<real>,
    paintCeiling: Option<bool>,
    paintTrim: Option<bool>,
    paintBudgetPercentage: Option<real>,
    targetMarginPercentage: Option<real>,
    subcontractPercentage: Option<real>,
    subHourlyRate: Option<real>,
    subNumPainters: Option<real>,
    subHoursPerDay: Option<real>,
    salesCommissionPercentage: Option<real>,
    pmCommissionPercentage: Option<real>
  )

  const NoInputChanges := InputsPatch(None, None, None, None, None, None, None, None, None,
                                      None, None, None, None, None, None, None, None, None)

  /** `{ ...prev, ...updates }`. */
  function UpdateInputs(prev: Inputs, u: InputsPatch): (r: Inputs)
    ensures r.rooms == u.rooms.GetOr(prev.rooms)
    ensures r.paintCoverage == u.paintCoverage.GetOr(prev.paintCoverage)
    ensures r.paintCostPerGallon == u.paintCostPerGallon.GetOr(prev.paintCostPerGallon)
    ensures r.hourlyLaborRate == u.hourlyLaborRate.GetOr(prev.hourlyLaborRate)
    ensures r.numberOfCoats == u.numberOfCoats.GetOr(prev.numberOfCoats)
    ensures r.ceilingHeight == u.ceilingHeight.GetOr(prev.ceilingHeight)
    ensures r.profitMarginPercentage == u.profitMarginPercentage.GetOr(prev.profitMarginPercentage)
    ensures r.pricePerSqFt == u.pricePerSqFt.GetOr(prev.pricePerSqFt)
    ensures r.paintCeiling == u.paintCeiling.GetOr(prev.paintCeiling)
    ensures r.paintTrim == u.paintTrim.GetOr(prev.paintTrim)
    ensures r.paintBudgetPercentage == u.paintBudgetPercentage.GetOr(prev.paintBudgetPercentage)
    ensures r.targetMarginPercentage == u.targetMarginPercentage.GetOr(prev.targetMarginPercentage)
    ensures r.subcontractPercentage == u.subcontractPercentage.GetOr(prev.subcontractPercentage)
    ensures r.subHourlyRate == u.subHourlyRate.GetOr(prev.subHourlyRate)
    ensures r.subNumPainters == u.subNumPainters.GetOr(prev.subNumPainters)
    ensures r.subHoursPerDay == u.subHoursPerDay.GetOr(prev.subHoursPerDay)
    ensures r.salesCommissionPercentage == u.salesCommissionPercentage.GetOr(prev.salesCommissionPercentage)
    ensures r.pmCommissionPercentage == u.pmCommissionPercentage.GetOr(prev.pmCommissionPercentage)
  {
    Inputs(
      u.rooms.GetOr(prev.rooms), u.paintCoverage.GetOr(prev.paintCoverage),
      u.paintCostPerGallon.GetOr(prev.paintCostPerGallon), u.hourlyLaborRate.GetOr(prev.hourlyLaborRate),
      u.numberOfCoats.GetOr(prev.numberOfCoats), u.ceilingHeight.GetOr(prev.ceilingHeight),
      u.profitMarginPercentage.GetOr(prev.profitMarginPercentage), u.pricePerSqFt.GetOr(prev.pricePerSqFt),
      u.paintCeiling.GetOr(prev.paintCeiling), u.paintTrim.GetOr(prev.paintTrim),
      u.paintBudgetPercentage.GetOr(prev.paintBudgetPercentage),
      u.targetMarginPercentage.GetOr(prev.targetMarginPercentage),
      u.subcontractPercentage.GetOr(prev.subcontractPercentage), u.subHourlyRate.GetOr(prev.subHourlyRate),
      u.subNumPainters.GetOr(prev.subNumPainters), u.subHoursPerDay.GetOr(prev.subHoursPerDay),
      u.salesCommissionPercentage.GetOr(prev.salesCommissionPercentage),
      u.pmCommissionPercentage.GetOr(prev.pmCommissionPercentage))
  }

  /** An empty update changes nothing, and applying an update twice is applying it once. */
  lemma UpdateInputsLaws(prev: Inputs, u: InputsPatch)
    ensures UpdateInputs(prev, NoInputChanges) == prev
    ensures UpdateInputs(UpdateInputs(prev, u), u) == UpdateInputs(prev, u)
  {
  }

  /** An update that leaves the rooms alone leaves every area total alone. */
  lemma UpdateInputsKeepsAreas(prev: Inputs, u: InputsPatch)
    requires u.rooms.None?
    requires prev.paintCoverage != 0.0 && UpdateInputs(prev, u).paintCoverage != 0.0
    ensures var a := Estimate(prev); var b := Estimate(UpdateInputs(prev, u));
      b.totalFloorArea == a.totalFloorArea && b.totalWallArea == a.totalWallArea
      && b.totalTrimArea == a.totalTrimArea && b.netWallArea == a.netWallArea
  {
  }

  // ---------------------------------------------------------------- editing the rooms

  /** `Partial<InteriorRoomData>`; `floorArea := Some(None)` clears the override. */
  datatype RoomPatch = RoomPatch(
    id: Option<string>,
    name: Option<string>,
    length: Option<real>,
    width: Option<real>,
    floorArea: Option<Option<real>>,
    ceilingHeight: Option<real>,
    hasBaseboards: Option<bool>,
    hasCrownMolding: Option<bool>,
    hasChairRail: Option<bool>,
    doors: Option<real>,
    windows: Option<real>
  )

  /** `{ ...room, ...updates }`. */
  function ApplyRoomPatch(room: Room, u: RoomPatch): (r: Room)
    ensures r.id == u.id.GetOr(room.id) && r.name == u.name.GetOr(room.name)
    ensures r.length == u.length.GetOr(room.length) && r.width == u.width.GetOr(room.width)
    ensures r.floorArea == u.floorArea.GetOr(room.floorArea)
    ensures r.ceilingHeight == u.ceilingHeight.GetOr(room.ceilingHeight)
    ensures r.hasBaseboards == u.hasBaseboards.GetOr(room.hasBaseboards)
    ensures r.hasCrownMolding == u.hasCrownMolding.GetOr(room.hasCrownMolding)
    ensures r.hasChairRail == u.hasChairRail.GetOr(room.hasChairRail)
    ensures r.doors == u.doors.GetOr(room.doors) && r.windows == u.windows.GetOr(room.windows)
  {
    Room(u.id.GetOr(room.id), u.name.GetOr(room.name), u.length.GetOr(room.length),
         u.width.GetOr(room.width), u.floorArea.GetOr(room.floorArea),
         u.ceilingHeight.GetOr(room.ceilingHeight), u.hasBaseboards.GetOr(room.hasBaseboards),
         u.hasCrownMolding.GetOr(room.hasCrownMolding), u.hasChairRail.GetOr(room.hasChairRail),
         u.doors.GetOr(room.doors), u.windows.GetOr(room.windows))
  }

  /**
   * The floor-area box: `Number(text) || undefined`. `parsed` is `Number`'s
   * result, `None` for NaN. An empty box (0), a typed 0 and text that is not a
   * number all clear the override; any other number sets it.
   */
  function FloorAreaEntry(parsed: Option<real>): (u: RoomPatch)
    ensures u.floorArea.Some?
    ensures u.floorArea.value.Some? <==> parsed.Some? && parsed.value != 0.0
    ensures u.floorArea.value.Some? ==> u.floorArea == Some(parsed)
    ensures u.(floorArea := None) == RoomPatch(None, None, None, None, None, None, None, None, None, None, None)
  {
    RoomPatch(None, None, None, None, Some(if Truthy(parsed) then parsed else None),
              None, None, None, None, None, None)
  }

  /** `rooms.map(room => room.id === roomId ? { ...room, ...updates } : room)`. */
  function UpdateRoom(prev: Inputs, roomId: string, u: RoomPatch): (r: Inputs)
    ensures r.(rooms := prev.rooms) == prev
    ensures |r.rooms| == |prev.rooms|
    ensures forall i :: 0 <= i < |prev.rooms| ==>
      r.rooms[i] == (if prev.rooms[i].id == roomId then ApplyRoomPatch(prev.rooms[i], u) else prev.rooms[i])
  {
    prev.(rooms := Lists.MapWhere(prev.rooms, (room: Room) => room.id == roomId,
                                  (room: Room) => ApplyRoomPatch(room, u)))
  }

  /** Updating an id that no room carries changes nothing. */
  lemma UpdateRoomUnknownId(prev: Inputs, roomId: string, u: RoomPatch)
    requires forall i :: 0 <= i < |prev.rooms| ==> prev.rooms[i].id != roomId
    ensures UpdateRoom(prev, roomId, u) == prev
  {
    assert UpdateRoom(prev, roomId, u).rooms == prev.rooms;
  }

  /**
   * Typing into a room's floor-area box changes the floor, ceiling and price
   * but never the wall, opening or trim areas: those come from length and width.
   */
  lemma FloorAreaEntryKeepsWalls(prev: Inputs, roomId: string, parsed: Option<real>)
    requires prev.paintCoverage != 0.0
    ensures var a := Estimate(prev); var b := Estimate(UpdateRoom(prev, roomId, FloorAreaEntry(parsed)));
      b.totalWallArea == a.totalWallArea && b.totalDoorArea == a.totalDoorArea
      && b.totalWindowArea == a.totalWindowArea && b.totalTrimArea == a.totalTrimArea
      && b.netWallArea == a.netWallArea
  {
    var next := UpdateRoom(prev, roomId, FloorAreaEntry(parsed));
    forall i | 0 <= i < |next.rooms|
      ensures RoomWallArea(next.rooms[i]) == RoomWallArea(prev.rooms[i])
      ensures RoomDoorArea(next.rooms[i]) == RoomDoorArea(prev.rooms[i])
      ensures RoomWindowArea(next.rooms[i]) == RoomWindowArea(prev.rooms[i])
      ensures RoomTrimArea(next.rooms[i]) == RoomTrimArea(prev.rooms[i])
    {
      SameShapeSameAreas(next.rooms[i], prev.rooms[i]);
    }
    SumPointwise(next.rooms, prev.rooms, RoomWallArea, RoomWallArea);
    SumPointwise(next.rooms, prev.rooms, RoomDoorArea, RoomDoorArea);
    SumPointwise(next.rooms, prev.rooms, RoomWindowArea, RoomWindowArea);
    SumPointwise(next.rooms, prev.rooms, RoomTrimArea, RoomTrimArea);
    SameWallTotalsSameWalls(prev, next);
  }

  /** Rooms that differ at most in name, id and floor-area override have the same wall, opening and trim areas. */
  lemma SameShapeSameAreas(r: Room, q: Room)
    requires r.(id := q.id, name := q.name, floorArea := q.floorArea) == q
    ensures RoomWallArea(r) == RoomWallArea(q) && RoomDoorArea(r) == RoomDoorArea(q)
    ensures RoomWindowArea(r) == RoomWindowArea(q) && RoomTrimArea(r) == RoomTrimArea(q)
  {
    assert r.length == q.length && r.width == q.width && r.ceilingHeight == q.ceilingHeight;
  }

  /** Two estimates whose rooms agree on the wall, opening and trim totals agree on those figures. */
  lemma SameWallTotalsSameWalls(x: Inputs, y: Inputs)
    requires x.paintCoverage != 0.0 && y.paintCoverage != 0.0
    requires var a := RoomTotals(x.rooms); var b := RoomTotals(y.rooms);
      a.wall == b.wall && a.door == b.door && a.window == b.window && a.trim == b.trim
    ensures var a := Estimate(x); var b := Estimate(y);
      b.totalWallArea == a.totalWallArea && b.totalDoorArea == a.totalDoorArea
      && b.totalWindowArea == a.totalWindowArea && b.totalTrimArea == a.totalTrimArea
      && b.netWallArea == a.netWallArea
  {
  }

  /** The room `addRoom` appends. */
  function NewRoom(inp: Inputs, newId: string): (r: Room)
    ensures r.name == "Room " + Text.NatToString(|inp.rooms| + 1)
    ensures r.ceilingHeight == inp.ceilingHeight && r.floorArea == None
    ensures r.length == 0.0 && r.width == 0.0 && r.doors == 1.0 && r.windows == 1.0
    ensures r.hasBaseboards && !r.hasCrownMolding && !r.hasChairRail
  {
    Room(newId, "Room " + Text.NatToString(|inp.rooms| + 1), 0.0, 0.0, None,
         inp.ceilingHeight, true, false, false, 1.0, 1.0)
  }

  /** `addRoom`: the new room goes at the end; nothing else changes. */
  function AddRoom(prev: Inputs, newId: string): (r: Inputs)
    ensures r.(rooms := prev.rooms) == prev
    ensures r.rooms == prev.rooms + [NewRoom(prev, newId)]
  {
    prev.(rooms := prev.rooms + [NewRoom(prev, newId)])
  }

  /**
   * The added 0 × 0 room adds no floor, wall or trim area, but its door and
   * window take 36 square feet off the net wall area.
   */
  lemma AddRoomEffect(prev: Inputs, newId: string)
    requires prev.paintCoverage != 0.0
    ensures var a := Estimate(prev); var b := Estimate(AddRoom(prev, newId));
      b.totalFloorArea == a.totalFloorArea && b.totalWallArea == a.totalWallArea
      && b.totalTrimArea == a.totalTrimArea
      && b.totalDoorArea == a.totalDoorArea + 21.0
      && b.totalWindowArea == a.totalWindowArea + 15.0
      && b.netWallArea == a.netWallArea - 36.0
  {
    var rooms := AddRoom(prev, newId).rooms;
    assert rooms[..|rooms| - 1] == prev.rooms;
  }

  /** `removeRoom`: drop the rooms with that id, unless only one room is left. */
  function RemoveRoom(prev: Inputs, roomId: string): (r: Inputs)
    ensures r.(rooms := prev.rooms) == prev
    ensures |prev.rooms| <= 1 ==> r == prev
    ensures |prev.rooms| > 1 ==>
      (forall room :: room in r.rooms <==> room in prev.rooms && room.id != roomId)
  {
    if |prev.rooms| > 1 then
      prev.(rooms := Lists.Filter(prev.rooms, (room: Room) => room.id != roomId))
    else prev
  }

  predicate DistinctIds(rooms: seq<Room>) {
    forall i, j :: 0 <= i < j < |rooms| ==> rooms[i].id != rooms[j].id
  }

  /** With distinct ids, removing a room never leaves the list empty. */
  lemma RemoveRoomNeverEmpties(prev: Inputs, roomId: string)
    requires |prev.rooms| >= 1 && DistinctIds(prev.rooms)
    ensures |RemoveRoom(prev, roomId).rooms| >= 1
  {
    if |prev.rooms| > 1 {
      var keep := if prev.rooms[0].id != roomId then prev.rooms[0] else prev.rooms[1];
      assert keep in RemoveRoom(prev, roomId).rooms;
    }
  }
}
