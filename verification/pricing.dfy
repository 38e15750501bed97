/** The pricing engine: from a road distance, a travel time, a vehicle and
    the cost settings to a financial breakdown and a sale price. Amounts
    are exact reals; the service rounds them only when it answers. */
module Pricing {
  import opened Wrappers
  import opened TripLength
  import opened Records

  /** Cost parameters of the service: fuel price per litre, the driver's
      monthly salary, the standard per-diem, working days per month and
      the profit margin as a fraction of the sale price. */
  datatype Settings = Settings(
    fuelPrice: real,
    driverSalary: real,
    standardPerDiem: real,
    workingDays: int,
    profitMargin: real)

  const DefaultSettings: Settings := Settings(6.89, 2500.0, 150.0, 22, 0.30)

  /** Settings for which every division of the quote is defined and the
      margin is a share of the price (the service does not check this). */
  predicate SaneSettings(s: Settings)
  {
    s.workingDays > 0 && s.profitMargin < 1.0
  }

  /** A vehicle whose consumption and tank the quote can divide by (the
      service does not check this either). */
  predicate Fuelable(v: Vehicle)
  {
    v.consumption > 0.0 && v.tank > 0
  }

  /** The pricing part of a quote request: the vehicle, whether the trip is
      a round trip, and the optional fuel price and per-diem overrides. */
  datatype QuoteRequest = QuoteRequest(
    vehicleId: string,
    roundTrip: bool,
    fuelPriceOverride: Option<real>,
    perDiemOverride: Option<real>)

  /** What the road router reports for a route. */
  datatype RoadRoute = RoadRoute(distanceKm: real, durationHours: real)

  /** One-way distance and travel time the quote starts from. */
  datatype RouteFigures = RouteFigures(distanceKm: real, travelHours: real)

  datatype FinancialBreakdown = FinancialBreakdown(
    fuelCost: real,
    fuelLiters: real,
    refuelStops: int,
    driverSalaryCost: real,
    driverPerDiemCost: real,
    driverCostTotal: real,
    operatingCost: real,
    estimatedProfit: real)

  datatype Quote = Quote(
    distanceKm: real,
    travelHours: real,
    tripDays: int,
    salePrice: real,
    breakdown: FinancialBreakdown,
    vehicle: Vehicle)

  datatype QuoteError = VehicleNotFound

  /** Distance and time of the route: the router's figures when it
      answered, otherwise the straight-line distance stretched by 20% and
      driven at the flat average speed. */
  function RouteFiguresOf(route: Option<RoadRoute>, greatCircleKm: real): (f: RouteFigures)
    ensures route.Some? ==> f.distanceKm == route.value.distanceKm && f.travelHours == route.value.durationHours
    ensures route.None? ==> f.distanceKm == 1.2 * greatCircleKm && f.travelHours * AverageSpeedKmh == f.distanceKm
  {
    match route
    case Some(r) => RouteFigures(r.distanceKm, r.durationHours)
    case None =>
      var d := greatCircleKm * 1.2;
      RouteFigures(d, d / AverageSpeedKmh)
  }

  /** Stops to refuel beyond the full tank at departure: none when the
      tank holds the fuel, otherwise the least number of further full
      tanks that covers the rest. */
  function RefuelStops(liters: real, tank: int): (stops: int)
    requires tank > 0
    ensures stops >= 0
    ensures stops == 0 <==> liters <= tank as real
    ensures liters <= (stops + 1) as real * tank as real
    ensures stops == 0 || stops as real * tank as real < liters
  {
    if liters > tank as real then
      var c := Ceil((liters - tank as real) / tank as real);
      ExtraTanksCover(liters, tank as real, c);
      c
    else 0
  }

  lemma ExtraTanksCover(liters: real, tank: real, c: int)
    requires 0.0 < tank < liters
    requires c as real - 1.0 < (liters - tank) / tank <= c as real
    ensures c >= 1
    ensures liters <= (c + 1) as real * tank
    ensures c as real * tank < liters
  {
    var q := (liters - tank) / tank;
    var cr := c as real;
    assert q * tank == liters - tank;
    if q < cr { ProductMonotone(q, cr, tank); }
    ProductMonotone(cr - 1.0, q, tank);
    ProductDistributes(cr, 1.0, tank);
    ProductDistributes(cr + 1.0, 1.0, tank);
    assert cr * tank - 1.0 * tank < liters - tank;
    assert 1.0 * tank == tank;
  }

  lemma ProductPositive(a: real, t: real)
    requires t > 0.0 && a > 0.0
    ensures a * t > 0.0
  {
  }

  lemma ProductDistributes(a: real, b: real, t: real)
    ensures (a - b) * t == a * t - b * t
  {
  }

  lemma ProductMonotone(a: real, b: real, t: real)
    requires t > 0.0 && a < b
    ensures a * t < b * t
  {
    ProductDistributes(b, a, t);
    ProductPositive(b - a, t);
  }

  /** The fuel price in effect: the override unless it is absent or zero
      (the service falls back with a falsy `or`). */
  function EffectiveFuelPrice(override: Option<real>, default: real): (price: real)
    ensures override == None || override == Some(0.0) ==> price == default
    ensures override.Some? && override.value != 0.0 ==> price == override.value
  {
    if override.Some? && override.value != 0.0 then override.value else default
  }

  /** The per-diem in effect: the override whenever one is given, zero
      included. */
  function EffectivePerDiem(override: Option<real>, default: real): (perDiem: real)
    ensures override == None ==> perDiem == default
    ensures override.Some? ==> perDiem == override.value
  {
    if override.Some? then override.value else default
  }

  /** Litres needed to drive `distanceKm` at `consumption` km per litre. */
  function FuelLiters(distanceKm: real, consumption: real): (liters: real)
    requires consumption > 0.0
    ensures liters * consumption == distanceKm
  {
    distanceKm / consumption
  }

  /** Cost of `liters` of fuel at `pricePerLiter`. */
  function FuelCost(liters: real, pricePerLiter: real): (cost: real)
    ensures liters >= 0.0 && pricePerLiter >= 0.0 ==> cost >= 0.0
    ensures cost == 0.0 <==> liters == 0.0 || pricePerLiter == 0.0
  {
    liters * pricePerLiter
  }

  /** The share of the driver's monthly salary paid for `days` trip days:
      the salary spread evenly over the working days of a month. */
  function SalaryShare(s: Settings, days: int): (share: real)
    requires s.workingDays > 0
    ensures days == s.workingDays ==> share == s.driverSalary
    ensures days == 0 ==> share == 0.0
    ensures s.driverSalary >= 0.0 && days >= 0 ==> share >= 0.0
  {
    var daily := s.driverSalary / s.workingDays as real;
    assert daily * s.workingDays as real == s.driverSalary;
    ShareNonNegative(s.driverSalary, s.workingDays as real, days as real);
    daily * days as real
  }

  lemma ShareNonNegative(total: real, parts: real, count: real)
    requires parts > 0.0
    ensures total >= 0.0 && count >= 0.0 ==> total / parts * count >= 0.0
  {
    if total >= 0.0 && count >= 0.0 {
      var each := total / parts;
      assert each * parts == total;
      if each < 0.0 {
        ProductMonotone(each, 0.0, parts);
      }
      if each > 0.0 && count > 0.0 {
        ProductPositive(each, count);
      }
    }
  }

  /** Per-diem paid for `days` trip days. */
  function PerDiemCost(perDiem: real, days: int): (cost: real)
    ensures days == 1 ==> cost == perDiem
    ensures cost == 0.0 <==> perDiem == 0.0 || days == 0
    ensures perDiem >= 0.0 && days >= 0 ==> cost >= 0.0
  {
    perDiem * days as real
  }

  /** Sale price for an operating cost when the margin is a share of the
      price rather than a markup on the cost. */
  function SalePrice(cost: real, margin: real): (price: real)
    requires margin < 1.0
    ensures price * (1.0 - margin) == cost
    ensures price - cost == margin * price
  {
    var p := cost / (1.0 - margin);
    assert p * (1.0 - margin) == cost;
    assert p - cost == p - p * (1.0 - margin);
    p
  }

  /** The arithmetic of a quote once distance and hours are known: a
      round trip doubles both before anything is derived from them, then
      the overrides are resolved and the trip is priced. */
  function PriceQuote(distanceKm: real, travelHours: real, req: QuoteRequest, vehicle: Vehicle, s: Settings): (q: Quote)
    requires Fuelable(vehicle) && SaneSettings(s)
    ensures q.distanceKm == (if req.roundTrip then 2.0 * distanceKm else distanceKm)
    ensures q.travelHours == (if req.roundTrip then 2.0 * travelHours else travelHours)
    ensures q.tripDays == TripDays(q.travelHours)
    ensures q.tripDays >= 1 && q.travelHours <= HoursPerDay * q.tripDays as real
    ensures q.breakdown.fuelLiters == FuelLiters(q.distanceKm, vehicle.consumption)
    ensures q.breakdown.refuelStops == RefuelStops(q.breakdown.fuelLiters, vehicle.tank)
    ensures q.breakdown.refuelStops == 0 <==> q.breakdown.fuelLiters <= vehicle.tank as real
    ensures q.breakdown.fuelCost == FuelCost(q.breakdown.fuelLiters, EffectiveFuelPrice(req.fuelPriceOverride, s.fuelPrice))
    ensures q.breakdown.driverSalaryCost == SalaryShare(s, q.tripDays)
    ensures q.breakdown.driverPerDiemCost == PerDiemCost(EffectivePerDiem(req.perDiemOverride, s.standardPerDiem), q.tripDays)
    ensures q.breakdown.driverCostTotal == q.breakdown.driverSalaryCost + q.breakdown.driverPerDiemCost
    ensures q.breakdown.operatingCost == q.breakdown.fuelCost + q.breakdown.driverCostTotal
    ensures q.vehicle == vehicle
  {
    var distance := if req.roundTrip then distanceKm * 2.0 else distanceKm;
    var hours := if req.roundTrip then travelHours * 2.0 else travelHours;
    PriceTrip(distance, hours,
      EffectiveFuelPrice(req.fuelPriceOverride, s.fuelPrice),
      EffectivePerDiem(req.perDiemOverride, s.standardPerDiem),
      vehicle, s)
  }

  /** Prices a trip of `distanceKm` and `travelHours` at the given fuel
      price and per-diem: fuel for the distance, the driver's salary share
      and per-diem for each trip day, and a sale price of which the margin
      is the profit share. */
  function PriceTrip(distanceKm: real, travelHours: real, fuelPrice: real, perDiem: real, vehicle: Vehicle, s: Settings): (q: Quote)
    requires Fuelable(vehicle) && SaneSettings(s)
    ensures q.distanceKm == distanceKm && q.travelHours == travelHours
    ensures q.tripDays >= 1 && travelHours <= HoursPerDay * q.tripDays as real
    ensures q.tripDays == 1 || HoursPerDay * (q.tripDays - 1) as real < travelHours
    ensures q.breakdown.fuelLiters == FuelLiters(q.distanceKm, vehicle.consumption)
    ensures q.breakdown.fuelLiters * vehicle.consumption == q.distanceKm
    ensures q.breakdown.refuelStops == 0 <==> q.breakdown.fuelLiters <= vehicle.tank as real
    ensures q.breakdown.refuelStops == RefuelStops(q.breakdown.fuelLiters, vehicle.tank)
    ensures q.breakdown.fuelCost == FuelCost(q.breakdown.fuelLiters, fuelPrice)
    ensures q.breakdown.driverSalaryCost == SalaryShare(s, q.tripDays)
    ensures q.breakdown.driverPerDiemCost == PerDiemCost(perDiem, q.tripDays)
    ensures q.breakdown.driverCostTotal == q.breakdown.driverSalaryCost + q.breakdown.driverPerDiemCost
    ensures q.breakdown.operatingCost == q.breakdown.fuelCost + q.breakdown.driverCostTotal
    ensures q.salePrice * (1.0 - s.profitMargin) == q.breakdown.operatingCost
    ensures q.breakdown.estimatedProfit == s.profitMargin * q.salePrice
    ensures q.vehicle == vehicle
  {
    var days := TripDays(travelHours);
    var liters := FuelLiters(distanceKm, vehicle.consumption);
    var stops := RefuelStops(liters, vehicle.tank);
    var fuelCost := FuelCost(liters, fuelPrice);
    var salaryShare := SalaryShare(s, days);
    var perDiemCost := PerDiemCost(perDiem, days);
    var driverTotal := salaryShare + perDiemCost;
    var total := fuelCost + driverTotal;
    var price := SalePrice(total, s.profitMargin);
    Quote(distanceKm, travelHours, days, price,
      FinancialBreakdown(fuelCost, liters, stops, salaryShare, perDiemCost, driverTotal, total, price - total),
      vehicle)
  }

  /** The quote endpoint without geocoding: look the vehicle up, take the
      route figures, and price them. */
  function CalculateQuote(trucks: map<string, Vehicle>, req: QuoteRequest, route: Option<RoadRoute>, greatCircleKm: real, s: Settings): (r: Result<Quote, QuoteError>)
    requires SaneSettings(s)
    requires req.vehicleId in trucks ==> Fuelable(trucks[req.vehicleId])
    ensures r.Failure? <==> req.vehicleId !in trucks
    ensures r.Success? ==> r.value.vehicle == trucks[req.vehicleId]
    ensures r.Success? ==> r.value == PriceQuote(RouteFiguresOf(route, greatCircleKm).distanceKm,
      RouteFiguresOf(route, greatCircleKm).travelHours, req, trucks[req.vehicleId], s)
    ensures r.Success? && route.Some? ==>
      r.value.distanceKm == (if req.roundTrip then 2.0 else 1.0) * route.value.distanceKm &&
      r.value.travelHours == (if req.roundTrip then 2.0 else 1.0) * route.value.durationHours
    ensures r.Success? && route.None? ==>
      r.value.distanceKm == (if req.roundTrip then 2.4 else 1.2) * greatCircleKm &&
      r.value.travelHours * AverageSpeedKmh == r.value.distanceKm
  {
    if req.vehicleId !in trucks then Failure(VehicleNotFound)
    else
      var figures := RouteFiguresOf(route, greatCircleKm);
      Success(PriceQuote(figures.distanceKm, figures.travelHours, req, trucks[req.vehicleId], s))
  }

  /** The margin is a share of the sale price, not a markup on the cost:
      the price less the margin share is the operating cost, and the
      profit is the margin share of the price. */
  lemma ProfitIsMarginShare(distanceKm: real, travelHours: real, req: QuoteRequest, vehicle: Vehicle, s: Settings)
    requires Fuelable(vehicle) && SaneSettings(s)
    ensures var q := PriceQuote(distanceKm, travelHours, req, vehicle, s);
      && q.salePrice * (1.0 - s.profitMargin) == q.breakdown.operatingCost
      && q.breakdown.estimatedProfit == q.salePrice - q.breakdown.operatingCost
      && q.breakdown.estimatedProfit == s.profitMargin * q.salePrice
  {
  }

  /** Fuel for the quoted distance: the litres at the vehicle's consumption
      cover exactly the (possibly doubled) distance. */
  lemma FuelCoversDistance(distanceKm: real, travelHours: real, req: QuoteRequest, vehicle: Vehicle, s: Settings)
    requires Fuelable(vehicle) && SaneSettings(s)
    ensures var q := PriceQuote(distanceKm, travelHours, req, vehicle, s);
      q.breakdown.fuelLiters * vehicle.consumption == q.distanceKm
  {
  }

  /** A round trip is priced as a one-way trip of twice the distance and
      twice the hours: doubling comes before trip days and stops. */
  lemma RoundTripIsDoubledOneWay(distanceKm: real, travelHours: real, req: QuoteRequest, vehicle: Vehicle, s: Settings)
    requires Fuelable(vehicle) && SaneSettings(s) && req.roundTrip
    ensures PriceQuote(distanceKm, travelHours, req, vehicle, s) ==
      PriceQuote(2.0 * distanceKm, 2.0 * travelHours, req.(roundTrip := false), vehicle, s)
  {
  }

  /** A fuel price override of zero is ignored, as if none were given. */
  lemma ZeroFuelPriceOverrideFallsBack(distanceKm: real, travelHours: real, req: QuoteRequest, vehicle: Vehicle, s: Settings)
    requires Fuelable(vehicle) && SaneSettings(s) && req.fuelPriceOverride == Some(0.0)
    ensures PriceQuote(distanceKm, travelHours, req, vehicle, s) ==
      PriceQuote(distanceKm, travelHours, req.(fuelPriceOverride := None), vehicle, s)
    ensures PriceQuote(distanceKm, travelHours, req, vehicle, s).breakdown.fuelCost ==
      PriceQuote(distanceKm, travelHours, req, vehicle, s).breakdown.fuelLiters * s.fuelPrice
  {
    assert EffectiveFuelPrice(req.fuelPriceOverride, s.fuelPrice) == EffectiveFuelPrice(None, s.fuelPrice) == s.fuelPrice;
  }

  /** A per-diem override of zero is honoured: the driver then costs only
      the salary share. */
  lemma ZeroPerDiemOverrideIsHonoured(distanceKm: real, travelHours: real, req: QuoteRequest, vehicle: Vehicle, s: Settings)
    requires Fuelable(vehicle) && SaneSettings(s) && req.perDiemOverride == Some(0.0)
    ensures PriceQuote(distanceKm, travelHours, req, vehicle, s).breakdown.driverPerDiemCost == 0.0
    ensures PriceQuote(distanceKm, travelHours, req, vehicle, s).breakdown.driverCostTotal ==
      PriceQuote(distanceKm, travelHours, req, vehicle, s).breakdown.driverSalaryCost
  {
  }

  /** The operating cost is the fuel for the distance plus a fixed daily
      driver cost (salary share and per-diem) for each trip day. */
  lemma OperatingCostDecomposes(distanceKm: real, travelHours: real, req: QuoteRequest, vehicle: Vehicle, s: Settings)
    requires Fuelable(vehicle) && SaneSettings(s)
    ensures var q := PriceQuote(distanceKm, travelHours, req, vehicle, s);
      q.breakdown.operatingCost ==
        q.distanceKm / vehicle.consumption * EffectiveFuelPrice(req.fuelPriceOverride, s.fuelPrice) +
        (s.driverSalary / s.workingDays as real + EffectivePerDiem(req.perDiemOverride, s.standardPerDiem)) * q.tripDays as real
  {
    var q := PriceQuote(distanceKm, travelHours, req, vehicle, s);
    var fuelPrice := EffectiveFuelPrice(req.fuelPriceOverride, s.fuelPrice);
    var perDiem := EffectivePerDiem(req.perDiemOverride, s.standardPerDiem);
    assert q.breakdown.operatingCost ==
      FuelCost(FuelLiters(q.distanceKm, vehicle.consumption), fuelPrice) +
      (SalaryShare(s, q.tripDays) + PerDiemCost(perDiem, q.tripDays));
    FuelCostOfDistance(q.distanceKm, vehicle.consumption, fuelPrice);
    DriverCostPerDay(s, perDiem, q.tripDays);
  }

  lemma FuelCostOfDistance(distanceKm: real, consumption: real, pricePerLiter: real)
    requires consumption > 0.0
    ensures FuelCost(FuelLiters(distanceKm, consumption), pricePerLiter) == distanceKm / consumption * pricePerLiter
  {
  }

  lemma DriverCostPerDay(s: Settings, perDiem: real, days: int)
    requires s.workingDays > 0
    ensures SalaryShare(s, days) + PerDiemCost(perDiem, days) == (s.driverSalary / s.workingDays as real + perDiem) * days as real
  {
    ProductDistributes(s.driverSalary / s.workingDays as real, -perDiem, days as real);
  }

  /** With a margin in [0, 1) and a non-negative cost, the price covers the
      cost and the profit is non-negative. */
  lemma PriceCoversCost(distanceKm: real, travelHours: real, req: QuoteRequest, vehicle: Vehicle, s: Settings)
    requires Fuelable(vehicle) && SaneSettings(s) && 0.0 <= s.profitMargin
    requires distanceKm >= 0.0 && s.driverSalary >= 0.0
    requires EffectiveFuelPrice(req.fuelPriceOverride, s.fuelPrice) >= 0.0
    requires EffectivePerDiem(req.perDiemOverride, s.standardPerDiem) >= 0.0
    ensures PriceQuote(distanceKm, travelHours, req, vehicle, s).breakdown.operatingCost >= 0.0
    ensures PriceQuote(distanceKm, travelHours, req, vehicle, s).salePrice >=
      PriceQuote(distanceKm, travelHours, req, vehicle, s).breakdown.operatingCost
    ensures PriceQuote(distanceKm, travelHours, req, vehicle, s).breakdown.estimatedProfit >= 0.0
  {
    var q := PriceQuote(distanceKm, travelHours, req, vehicle, s);
    if q.breakdown.fuelLiters < 0.0 {
      ProductMonotone(q.breakdown.fuelLiters, 0.0, vehicle.consumption);
    }
    assert q.breakdown.operatingCost >= 0.0;
    PriceAtLeastCost(q.salePrice, s.profitMargin, q.breakdown.operatingCost);
  }

  lemma PriceAtLeastCost(price: real, margin: real, cost: real)
    requires 0.0 <= margin < 1.0 && cost >= 0.0
    requires price * (1.0 - margin) == cost
    requires price - cost == margin * price
    ensures price >= cost
  {
    if price < 0.0 {
      ProductMonotone(price, 0.0, 1.0 - margin);
    }
    if price > 0.0 && margin > 0.0 {
      ProductPositive(margin, price);
    }
  }
  /** Worked examples of the stop count with a 150-litre tank. */
  lemma RefuelStopsExamples()
    ensures RefuelStops(150.0, 150) == 0
    ensures RefuelStops(151.0, 150) == 1
    ensures RefuelStops(300.0, 150) == 1
    ensures RefuelStops(301.0, 150) == 2
  {
  }

  /** The reference quote: the urban truck (6 km/l, 150-litre tank) over
      900 km in 12 hours, one way, at the default settings. */
  lemma ReferenceQuote()
    ensures var q := PriceQuote(900.0, 12.0, QuoteRequest("vuc-01", false, None, None),
                               SeedTrucks["vuc-01"], DefaultSettings);
      && q.tripDays == 2
      && q.breakdown.fuelLiters == 150.0
      && q.breakdown.refuelStops == 0
      && q.breakdown.fuelCost == 1033.5
      && q.breakdown.driverSalaryCost == 2500.0 / 11.0
      && q.breakdown.driverPerDiemCost == 300.0
      && q.breakdown.operatingCost == 34337.0 / 22.0
      && q.salePrice == 171685.0 / 77.0
      && q.breakdown.estimatedProfit == 103011.0 / 154.0
  {
  }
}
