# Freight quote and fleet booking core, in Dafny

This project models the core of a freight-quoting and fleet-scheduling
service. The service is a single Python web application, `backend/app/main.py`.
The model covers three parts of it:

- **The availability guard** (`check_availability`). It scans the stored
  trips in insertion order. For the trip's vehicle or driver, picked by the
  resource kind, it finds the first trip whose half-open window
  `[start, end)` overlaps the proposed window. It reports either "free" or
  that trip's bounds.
- **The booking flow** (`book_trip`). The booking window comes from the
  distance, driven at a flat 70 km/h in days of 8 driving hours, and always
  covers at least one whole day. The vehicle is checked first, then the
  driver, and the first conflict rejects the booking. If both checks pass,
  the trip is appended, and the vehicle and the driver are marked booked
  when the catalogs contain them.
- **The quote arithmetic** (`calculate_quote`). It takes the vehicle
  lookup, the router's figures or the straight-line fallback (×1.2 at
  70 km/h), and round-trip doubling. From there it derives the trip days
  (`max(1, ceil(h/8))`), the litres, the refuelling stops beyond the first
  tank, and fuel and driver costs. It resolves the two overrides: a fuel
  price of zero falls back to the default, while a per-diem of zero is
  honoured. The sale price is `cost / (1 - margin)`, so the margin is a
  share of the price, not a markup on the cost.

Modules:

- `Wrappers`: Option and Result.
- `TripLength`: ceiling, trip days, booking days and booking end.
- `Records`: vehicles, drivers, trips and the seed catalog.
- `AvailabilityGuard`: the scan as a specification function, plus the
  no-double-booking invariant.
- `Pricing`: the quote.
- `Fleet`: the in-memory store as a class whose `BookTrip` method updates
  its fields.

Conventions:

- Timestamps are integer seconds, and one day is 86400.
- Money, distances and hours are exact reals.

Behaviour of the service worth knowing, which the model keeps:

- `book_trip` does not reject an unknown vehicle or driver id. It books the
  trip and only skips the status update for the missing catalog entry.
  `Fleet.FleetStore.BookTrip` does the same.
- The service never checks that the margin is below one, or that
  consumption, tank size and working days are positive. The model states
  these conditions as preconditions of the quote.
- In the reference quote (`Pricing.ReferenceQuote`) the exact sale price is
  171685/77 ≈ 2229.6753.
- `calculate_quote` passes a `custo_fixo_diario` keyword
  (`backend/app/main.py:352`) that `FinancialBreakdown`
  (`backend/app/main.py:89-100`) does not declare. Pydantic ignores it, so
  the response has no such field, and neither does the model's
  `FinancialBreakdown`.

## Model

| member | source | states |
|---|---|---|
| TripLength.Ceil | backend/app/main.py:315 | the result is the least integer not below the argument (`math.ceil`) |
| TripLength.TripDays | backend/app/main.py:315 | the days are at least one, their 8-hour days cover the hours, and one day fewer would not (unless it is one day) |
| TripLength.TripDaysExamples | backend/app/main.py:315 | half an hour and zero hours give 1 day, 8 h gives 1, 8.1 h gives 2 and 16 h gives 2 |
| TripLength.BookingDays | backend/app/main.py:258-260 | at least one day; the days cover the distance at 70 km/h × 8 h per day, and one day fewer would not |
| TripLength.BookingEnd | backend/app/main.py:262 | the end lies a positive whole number of days after the start, and that number is the booking days |
| AvailabilityGuard.FirstConflictIndex | backend/app/main.py:166-173 | the index is the first trip that conflicts with the window (no earlier trip does), or the length when none does |
| AvailabilityGuard.AvailabilityOf | backend/app/main.py:164-176 | free if and only if no trip of the resource overlaps the window; busy carries the bounds of the first overlapping trip in list order |
| AvailabilityGuard.AvailabilityAfterAppend | backend/app/main.py:166-175 | appending a trip keeps an earlier "busy" answer; on a free resource only the new trip decides |
| AvailabilityGuard.HalfOpenBoundaryExamples | backend/app/main.py:173 | a window sharing a day with a trip is busy, and a window starting when the trip ends is free |
| AvailabilityGuard.BackToBackIsFree | backend/app/main.py:173 | a window starting after, or ending before, every trip of the resource is free |
| AvailabilityGuard.GuardIsExact | backend/app/main.py:265-279 | on a store without double bookings, appending a trip keeps it free of double bookings exactly when the vehicle check and the driver check both answer free |
| Pricing.RouteFiguresOf | backend/app/main.py:302-309 | the router's distance and hours when it answered; otherwise 1.2 × the straight-line distance, driven at 70 km/h |
| Pricing.RefuelStops | backend/app/main.py:318-319 | no stops exactly when the tank holds the litres; otherwise the least number of extra full tanks that covers the litres |
| Pricing.RefuelStopsExamples | backend/app/main.py:319 | with a 150-litre tank, 150 l gives 0 stops, 151 l gives 1, 300 l gives 1 and 301 l gives 2 |
| Pricing.FuelLiters | backend/app/main.py:317 | the litres at the vehicle's consumption drive exactly the distance |
| Pricing.SalePrice | backend/app/main.py:333-334 | the price less its margin share is the cost, and the profit is the margin share of the price |
| Pricing.EffectiveFuelPrice | backend/app/main.py:321 | the override is used unless it is absent or zero, in which case the default fuel price applies |
| Pricing.EffectivePerDiem | backend/app/main.py:322 | the override is used whenever it is given, zero included; otherwise the standard per-diem |
| Pricing.FuelCost | backend/app/main.py:325 | the fuel cost is non-negative for non-negative litres and price, and zero exactly when either is zero |
| Pricing.SalaryShare | backend/app/main.py:328 | a trip as long as the month's working days costs exactly the monthly salary; a trip of no days costs nothing; a non-negative salary gives a non-negative share |
| Pricing.PerDiemCost | backend/app/main.py:329 | one day costs one per-diem; the cost is zero exactly when the per-diem or the day count is zero; a non-negative per-diem gives a non-negative cost |
| Pricing.PriceTrip | backend/app/main.py:315-334 | the days cover the hours tightly; the litres drive exactly the distance; the stops are the refuelling count for those litres; fuel cost is litres × fuel price; salary share and per-diem are charged per trip day; the driver total is their sum; the operating cost is fuel plus driver; the price less the margin is the operating cost; the profit is the margin share of the price |
| Pricing.PriceQuote | backend/app/main.py:311-334 | a round trip doubles distance and hours before anything else; the trip days are those of the (doubled) hours; the stops are the refuelling count for the litres; fuel is priced at the effective fuel price, per-diem at the effective per-diem, the salary share per trip day; driver total and operating cost are the sums of their parts; the vehicle is echoed |
| Pricing.CalculateQuote | backend/app/main.py:289-309 | fails exactly when the vehicle id is unknown; otherwise the quote is the one priced from the route figures for that vehicle: the router's distance and hours (doubled for a round trip), or 1.2 × (2.4 × for a round trip) the straight-line distance driven at 70 km/h |
| Pricing.ProfitIsMarginShare | backend/app/main.py:332-334 | the profit is price minus cost, which equals the margin share of the price |
| Pricing.FuelCoversDistance | backend/app/main.py:317 | the quoted litres at the vehicle's consumption cover exactly the quoted (possibly doubled) distance |
| Pricing.RoundTripIsDoubledOneWay | backend/app/main.py:311-315 | a round trip is priced exactly as a one-way trip of twice the distance and twice the hours |
| Pricing.ZeroFuelPriceOverrideFallsBack | backend/app/main.py:321 | a fuel-price override of zero gives the same quote as no override, with fuel priced at the default |
| Pricing.ZeroPerDiemOverrideIsHonoured | backend/app/main.py:322 | a per-diem override of zero is used: the per-diem cost is zero and the driver costs only the salary share |
| Pricing.FuelCostOfDistance | backend/app/main.py:317-325 | the fuel cost of the litres for a distance is distance / consumption × price |
| Pricing.DriverCostPerDay | backend/app/main.py:328-330 | salary share plus per-diem cost is (salary / working days + per-diem) × days |
| Pricing.OperatingCostDecomposes | backend/app/main.py:325-332 | the operating cost is the fuel for the distance at the effective price, plus (salary / working days + per-diem) for each trip day |
| Pricing.PriceCoversCost | backend/app/main.py:325-334 | with a non-negative distance, salary, effective fuel price and effective per-diem and a margin in [0, 1), the operating cost is non-negative, the price covers it and the profit is non-negative |
| Pricing.ReferenceQuote | backend/app/main.py:315-334 | vuc-01 over 900 km in 12 h at the default settings gives 2 days, 150 l, 0 stops, fuel 1033.5, salary share 2500/11, per-diem 300, cost 34337/22, price 171685/77 and profit 103011/154 |
| Fleet.ScheduledTrip | backend/app/main.py:272-277 | the stored trip carries the request's figures, vehicle and driver, the new id, the window from the start to the computed end with its day count, and the scheduled status |
| Fleet.MarkVehicleBooked | backend/app/main.py:281 | the catalog keeps its keys; only the named vehicle, if present, becomes booked |
| Fleet.MarkDriverBooked | backend/app/main.py:282 | the catalog keeps its keys; only the named driver, if present, becomes booked |
| Fleet.FleetStore.constructor | backend/app/main.py:37-47 | the store holds the given catalogs and no trips, and satisfies the store invariant |
| Fleet.FleetStore.CheckAvailability | backend/app/main.py:164-176 | the loop's answer is the specification `AvailabilityOf` of the stored trips |
| Fleet.FleetStore.BookTrip | backend/app/main.py:255-284 | a vehicle conflict rejects the booking, then a driver conflict does, with nothing written; otherwise the trip with its whole-day window is appended and both resources are marked booked; no double booking is ever stored |
| Fleet.DoubleBookingScenario | backend/app/main.py:265-269 | a one-day booking is confirmed; a second booking of the same driver an hour later is rejected with the first trip's window; carreta-01 with the other driver, mot-02, at the same hour is confirmed |

## Left out

- Geocoding of place names (`backend/app/main.py:130-138`) is not modelled, and neither is a geocoding failure, which the service answers with HTTP 500. The straight-line distance it leads to is an input of `Pricing.CalculateQuote`.
- The road router's HTTP call (`backend/app/main.py:140-158`) is not modelled: its answer, or its absence, is an input. The route geometry and the coordinates echoed in the quote response are not modelled.
- The great-circle distance computation is not modelled; it is an input.
- Rounding of the response figures to 2 or 1 decimals (`backend/app/main.py:336-355`) is not modelled. Binary floating point is replaced by exact reals.
- Conflict messages and timestamps are not formatted: a conflict is returned as a record of the resource kind and the trip's bounds. ISO date-time parsing is not modelled, and neither are the errors of comparing naive and timezone-aware date-times.
- Trip ids are a parameter of `Fleet.FleetStore.BookTrip` instead of a random UUID prefix.
- The list, create and delete endpoints for vehicles and drivers (`backend/app/main.py:196-237`) are not modelled. The trip listing (`backend/app/main.py:240-253`) is not modelled either.
- The web framework, CORS, request validation and the loading of settings from the environment are not modelled; the settings are a value.
- Concurrent requests on the shared in-memory store are not modelled.
- Pricing.PriceQuote: requires positive consumption and tank, positive working days and a margin below one. The service does not check these. With other values it would divide by zero or produce meaningless figures; the model does not describe that behaviour.
- Pricing.PriceTrip: has the same preconditions as `Pricing.PriceQuote`, for the same reason.
- Pricing.CalculateQuote: has the same preconditions, for the looked-up vehicle, for the same reason.
- TripLength.BookingEnd: timestamps are unbounded integers. The service's date-times end at year 9999, and adding the booking days past that raises an overflow error that the service answers with HTTP 500. `Fleet.FleetStore.BookTrip` therefore confirms bookings (for example a distance of 10^10 km) that the service would fail on.
- Fleet.FleetStore.BookTrip: for the same reason, it does not model the failure on booking windows that end after year 9999.
