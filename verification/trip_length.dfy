/** Trip-length arithmetic shared by the quote and by the booking flow:
    whole trip days of eight driving hours, and the booking window derived
    from distance at a flat average speed. */
module TripLength {

  /** Driving hours that make up one trip day. */
  const HoursPerDay: real := 8.0

  /** Flat average speed, in km/h, assumed by the booking flow and by the
      straight-line fallback of the quote. */
  const AverageSpeedKmh: real := 70.0

  /** Length of one day in the integer timestamps (seconds). */
  const SecondsPerDay: int := 86400

  /** The smallest integer not below `x` (ceiling on exact reals). */
  function Ceil(x: real): (n: int)
    ensures n as real - 1.0 < x <= n as real
  {
    -((-x).Floor)
  }

  /** `max(1, ceil(hours / 8))`: the least positive number of days whose
      driving hours cover `hours`. */
  function TripDays(hours: real): (days: int)
    ensures days >= 1
    ensures hours <= HoursPerDay * days as real
    ensures days == 1 || HoursPerDay * (days - 1) as real < hours
  {
    var d := Ceil(hours / HoursPerDay);
    if d < 1 then 1 else d
  }

  /** Days a booking blocks: the travel hours at the flat average speed,
      rounded up to whole trip days, never fewer than one. */
  function BookingDays(distanceKm: real): (days: int)
    ensures days >= 1
    ensures distanceKm <= AverageSpeedKmh * HoursPerDay * days as real
    ensures days == 1 || AverageSpeedKmh * HoursPerDay * (days - 1) as real < distanceKm
  {
    TripDays(distanceKm / AverageSpeedKmh)
  }

  /** End of the booking window that starts at `start`. */
  function BookingEnd(start: int, distanceKm: real): (end: int)
    ensures end >= start + SecondsPerDay
    ensures (end - start) % SecondsPerDay == 0
    ensures (end - start) / SecondsPerDay == BookingDays(distanceKm)
  {
    start + BookingDays(distanceKm) * SecondsPerDay
  }

  /** The worked examples of the trip-day rule: half an hour, exactly one
      day, just over one day and exactly two days. */
  lemma TripDaysExamples()
    ensures TripDays(0.5) == 1
    ensures TripDays(8.0) == 1
    ensures TripDays(8.1) == 2
    ensures TripDays(16.0) == 2
    ensures TripDays(0.0) == 1
  {
  }
}
