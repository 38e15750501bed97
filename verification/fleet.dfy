/** The fleet store and the booking flow: derive the booking window from
    the distance, check the vehicle and then the driver against every
    stored trip, and only when both are free append the trip and mark both
    resources as booked. */
module Fleet {
  import opened Records
  import opened TripLength
  import opened AvailabilityGuard

  /** A booking request: the quoted figures to store with the trip, the
      vehicle, the driver and the start of the trip (seconds). */
  datatype TripRequest = TripRequest(
    origin: string,
    destination: string,
    distanceKm: real,
    finalPrice: real,
    profit: real,
    driverCost: real,
    vehicleId: string,
    driverId: string,
    start: int,
    plannedStops: int)

  /** A confirmed booking carries the new trip's id and its estimated end;
      a rejected one (HTTP 409) the conflict that stopped it. */
  datatype BookingResult = Confirmed(id: string, estimatedEnd: int) | Rejected(conflict: Conflict)

  /** The record a confirmed booking stores: the request's figures and
      resources, the new id, the window `[req.start, end)` with its length
      in days, and the scheduled status. */
  function ScheduledTrip(req: TripRequest, id: string, end: int, days: int): (t: Trip)
    ensures t.id == id && t.status == Scheduled
    ensures t.vehicleId == req.vehicleId && t.driverId == req.driverId
    ensures t.start == req.start && t.end == end && t.durationDays == days
    ensures t.origin == req.origin && t.destination == req.destination && t.distanceKm == req.distanceKm
    ensures t.finalPrice == req.finalPrice && t.profit == req.profit && t.driverCost == req.driverCost
    ensures t.plannedStops == req.plannedStops
  {
    Trip(id, req.origin, req.destination, req.distanceKm, req.finalPrice, req.profit, req.driverCost,
      req.vehicleId, req.driverId, req.start, end, days, req.plannedStops, Scheduled)
  }

  /** The vehicle catalog after a booking: the named vehicle, if the
      catalog has it, is marked booked; nothing else changes. */
  function MarkVehicleBooked(trucks: map<string, Vehicle>, id: string): (m: map<string, Vehicle>)
    ensures m.Keys == trucks.Keys
    ensures forall k :: k in trucks && k != id ==> m[k] == trucks[k]
    ensures id in trucks ==> m[id] == trucks[id].(status := Booked)
  {
    if id in trucks then trucks[id := trucks[id].(status := Booked)] else trucks
  }

  /** The driver catalog after a booking, likewise. */
  function MarkDriverBooked(drivers: map<string, Driver>, id: string): (m: map<string, Driver>)
    ensures m.Keys == drivers.Keys
    ensures forall k :: k in drivers && k != id ==> m[k] == drivers[k]
    ensures id in drivers ==> m[id] == drivers[id].(status := Booked)
  {
    if id in drivers then drivers[id := drivers[id].(status := Booked)] else drivers
  }

  /** A stored trip spans a positive whole number of days. */
  ghost predicate WholeDays(t: Trip)
  {
    t.durationDays >= 1 && t.end == t.start + t.durationDays * SecondsPerDay
  }

  /** The in-memory store: vehicle and driver catalogs keyed by id, and the
      trips in insertion order. */
  class FleetStore {
    var trucks: map<string, Vehicle>
    var drivers: map<string, Driver>
    var trips: seq<Trip>

    /** No vehicle and no driver is double-booked, and every trip spans
        whole days. */
    ghost predicate Valid()
      reads this
    {
      NoDoubleBooking(trips) && forall i :: 0 <= i < |trips| ==> WholeDays(trips[i])
    }

    constructor (trucks: map<string, Vehicle>, drivers: map<string, Driver>)
      ensures Valid()
      ensures this.trucks == trucks && this.drivers == drivers && trips == []
    {
      this.trucks := trucks;
      this.drivers := drivers;
      trips := [];
    }

    /** Scans the trips in order and reports the first one of the resource
        whose window overlaps `[start, end)`. */
    method CheckAvailability(resourceId: string, start: int, end: int, kind: string) returns (r: Availability)
      ensures r == AvailabilityOf(trips, resourceId, start, end, kind)
    {
      var i := 0;
      while i < |trips|
        invariant 0 <= i <= |trips|
        invariant forall j :: 0 <= j < i ==> !ConflictsWith(trips[j], resourceId, start, end, kind)
      {
        var t := trips[i];
        var tripResource := if kind == VehicleKind then t.vehicleId else t.driverId;
        if tripResource == resourceId {
          if start < t.end && end > t.start {
            return Busy(Conflict(kind, t.start, t.end));
          }
        }
        i := i + 1;
      }
      return Free;
    }

    /** Books a trip: rejected on the first conflict (vehicle first), with
        nothing written; otherwise the trip is appended and the vehicle and
        driver, where the catalogs have them, are marked booked. */
    method BookTrip(req: TripRequest, tripId: string) returns (result: BookingResult)
      requires Valid()
      modifies this
      ensures Valid()
      ensures
        var days := BookingDays(req.distanceKm);
        var end := BookingEnd(req.start, req.distanceKm);
        var vehicleCheck := AvailabilityOf(old(trips), req.vehicleId, req.start, end, VehicleKind);
        var driverCheck := AvailabilityOf(old(trips), req.driverId, req.start, end, DriverKind);
        if vehicleCheck.Busy? then
          result == Rejected(vehicleCheck.conflict) &&
          trips == old(trips) && trucks == old(trucks) && drivers == old(drivers)
        else if driverCheck.Busy? then
          result == Rejected(driverCheck.conflict) &&
          trips == old(trips) && trucks == old(trucks) && drivers == old(drivers)
        else
          result == Confirmed(tripId, end) &&
          trips == old(trips) + [ScheduledTrip(req, tripId, end, days)] &&
          trucks == MarkVehicleBooked(old(trucks), req.vehicleId) &&
          drivers == MarkDriverBooked(old(drivers), req.driverId)
    {
      var days := BookingDays(req.distanceKm);
      var end := BookingEnd(req.start, req.distanceKm);

      var vehicleCheck := CheckAvailability(req.vehicleId, req.start, end, VehicleKind);
      if vehicleCheck.Busy? {
        return Rejected(vehicleCheck.conflict);
      }
      var driverCheck := CheckAvailability(req.driverId, req.start, end, DriverKind);
      if driverCheck.Busy? {
        return Rejected(driverCheck.conflict);
      }

      var trip := ScheduledTrip(req, tripId, end, days);
      GuardIsExact(trips, trip);
      assert WholeDays(trip);
      trips := trips + [trip];
      trucks := MarkVehicleBooked(trucks, req.vehicleId);
      drivers := MarkDriverBooked(drivers, req.driverId);
      return Confirmed(tripId, end);
    }
  }

  /** Three bookings on a fresh store: a one-day trip for vuc-01 driven by
      mot-01; an hour later carreta-01 with the same driver, rejected for
      the driver; and carreta-01 with mot-02, confirmed. */
  method DoubleBookingScenario() returns (first: BookingResult, second: BookingResult, third: BookingResult)
    ensures first == Confirmed("t1", SecondsPerDay)
    ensures second == Rejected(Conflict(DriverKind, 0, SecondsPerDay))
    ensures third == Confirmed("t3", 3600 + SecondsPerDay)
  {
    var store := new FleetStore(SeedTrucks, SeedDrivers);
    assert BookingDays(100.0) == 1;
    assert BookingEnd(0, 100.0) == SecondsPerDay && BookingEnd(3600, 100.0) == 3600 + SecondsPerDay;
    var one := TripRequest("A", "B", 100.0, 0.0, 0.0, 0.0, "vuc-01", "mot-01", 0, 0);
    var two := TripRequest("A", "C", 100.0, 0.0, 0.0, 0.0, "carreta-01", "mot-01", 3600, 0);
    var three := TripRequest("A", "C", 100.0, 0.0, 0.0, 0.0, "carreta-01", "mot-02", 3600, 0);

    first := store.BookTrip(one, "t1");
    var t1 := ScheduledTrip(one, "t1", SecondsPerDay, 1);
    assert store.trips == [t1];

    assert AvailabilityOf([t1], "carreta-01", 3600, 3600 + SecondsPerDay, VehicleKind) == Free;
    assert ConflictsWith(t1, "mot-01", 3600, 3600 + SecondsPerDay, DriverKind);
    second := store.BookTrip(two, "t2");
    assert store.trips == [t1];

    assert AvailabilityOf([t1], "mot-02", 3600, 3600 + SecondsPerDay, DriverKind) == Free;
    third := store.BookTrip(three, "t3");
  }
}
