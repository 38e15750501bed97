/** The availability guard: a linear scan of the trips, in insertion
    order, for the first trip of a resource whose half-open window
    overlaps a proposed one; and the no-double-booking invariant that the
    guard protects. */
module AvailabilityGuard {
  import opened Records

  /** The resource kind that selects a trip's vehicle; any other kind
      selects its driver. */
  const VehicleKind: string := "veiculo"
  const DriverKind: string := "motorista"

  /** The window of the first conflicting trip, and the kind that was
      checked (it names the resource in the conflict message). */
  datatype Conflict = Conflict(kind: string, start: int, end: int)

  datatype Availability = Free | Busy(conflict: Conflict)

  /** The id a check of `kind` compares against. */
  function ResourceOf(t: Trip, kind: string): string
  {
    if kind == VehicleKind then t.vehicleId else t.driverId
  }

  /** Half-open windows `[start, end)` and `[otherStart, otherEnd)`
      share an instant. */
  predicate Overlaps(start: int, end: int, otherStart: int, otherEnd: int)
  {
    start < otherEnd && end > otherStart
  }

  predicate ConflictsWith(t: Trip, resourceId: string, start: int, end: int, kind: string)
  {
    ResourceOf(t, kind) == resourceId && Overlaps(start, end, t.start, t.end)
  }

  /** Index of the first trip that conflicts with the proposed window, or
      `|trips|` when none does. */
  function FirstConflictIndex(trips: seq<Trip>, resourceId: string, start: int, end: int, kind: string): (k: nat)
    ensures k <= |trips|
    ensures forall j :: 0 <= j < k ==> !ConflictsWith(trips[j], resourceId, start, end, kind)
    ensures k < |trips| ==> ConflictsWith(trips[k], resourceId, start, end, kind)
    decreases |trips|
  {
    if |trips| == 0 then 0
    else if ConflictsWith(trips[0], resourceId, start, end, kind) then 0
    else 1 + FirstConflictIndex(trips[1..], resourceId, start, end, kind)
  }

  /** What the scan reports: free when no trip of the resource overlaps the
      window, otherwise the bounds of the first overlapping trip. */
  function AvailabilityOf(trips: seq<Trip>, resourceId: string, start: int, end: int, kind: string): (r: Availability)
    ensures r.Free? <==> forall j :: 0 <= j < |trips| ==> !ConflictsWith(trips[j], resourceId, start, end, kind)
    ensures r.Busy? ==>
      exists k :: 0 <= k < |trips| && ConflictsWith(trips[k], resourceId, start, end, kind)
        && (forall j :: 0 <= j < k ==> !ConflictsWith(trips[j], resourceId, start, end, kind))
        && r.conflict == Conflict(kind, trips[k].start, trips[k].end)
  {
    var k := FirstConflictIndex(trips, resourceId, start, end, kind);
    if k == |trips| then Free else Busy(Conflict(kind, trips[k].start, trips[k].end))
  }

  /** Appending a trip never changes an earlier verdict of "busy" (the
      first conflict in list order wins); on a free resource the verdict
      is decided by the new trip alone. */
  lemma {:induction false} AvailabilityAfterAppend(trips: seq<Trip>, t: Trip, resourceId: string, start: int, end: int, kind: string)
    ensures AvailabilityOf(trips + [t], resourceId, start, end, kind) ==
      if AvailabilityOf(trips, resourceId, start, end, kind).Busy? then AvailabilityOf(trips, resourceId, start, end, kind)
      else if ConflictsWith(t, resourceId, start, end, kind) then Busy(Conflict(kind, t.start, t.end))
      else Free
  {
    var all := trips + [t];
    var k := FirstConflictIndex(trips, resourceId, start, end, kind);
    var k' := FirstConflictIndex(all, resourceId, start, end, kind);
    assert forall j :: 0 <= j < |trips| ==> all[j] == trips[j];
    if k < |trips| {
      assert k' == k;
    } else if ConflictsWith(t, resourceId, start, end, kind) {
      assert all[|trips|] == t;
      assert k' == |trips|;
    } else {
      assert all[|trips|] == t;
      assert k' == |all|;
    }
  }

  /** Windows that only touch at a boundary never conflict; windows that
      share a day do: an existing trip over `[d, d + 2 days)` blocks
      `[d + 1 day, d + 3 days)` and leaves `[d + 2 days, d + 4 days)` free. */
  lemma HalfOpenBoundaryExamples(t: Trip, day: int)
    requires day > 0 && t.end == t.start + 2 * day
    ensures AvailabilityOf([t], t.vehicleId, t.start + day, t.start + 3 * day, VehicleKind).Busy?
    ensures AvailabilityOf([t], t.vehicleId, t.start + 2 * day, t.start + 4 * day, VehicleKind) == Free
    ensures AvailabilityOf([t], t.driverId, t.start + 2 * day, t.start + 4 * day, DriverKind) == Free
  {
  }

  /** A window that starts when every trip of the resource has ended, or
      ends before any of them starts, is free: back-to-back bookings do
      not conflict. */
  lemma BackToBackIsFree(trips: seq<Trip>, resourceId: string, start: int, end: int, kind: string)
    requires forall j :: 0 <= j < |trips| && ResourceOf(trips[j], kind) == resourceId ==>
      trips[j].end <= start || end <= trips[j].start
    ensures AvailabilityOf(trips, resourceId, start, end, kind) == Free
  {
  }

  /** Two trips clash when they share a vehicle or a driver and their
      windows overlap. */
  predicate Clash(a: Trip, b: Trip)
  {
    (a.vehicleId == b.vehicleId || a.driverId == b.driverId) && Overlaps(a.start, a.end, b.start, b.end)
  }

  /** No two trips of the same vehicle, and no two trips of the same
      driver, have overlapping windows. */
  ghost predicate NoDoubleBooking(trips: seq<Trip>)
  {
    forall i, j :: 0 <= i < j < |trips| ==> !Clash(trips[i], trips[j])
  }

  /** On a store without double bookings, appending a trip keeps it free of
      double bookings exactly when both checks of the guard pass. */
  lemma GuardIsExact(trips: seq<Trip>, t: Trip)
    requires NoDoubleBooking(trips)
    ensures NoDoubleBooking(trips + [t]) <==>
      AvailabilityOf(trips, t.vehicleId, t.start, t.end, VehicleKind).Free? &&
      AvailabilityOf(trips, t.driverId, t.start, t.end, DriverKind).Free?
  {
    var all := trips + [t];
    assert forall j :: 0 <= j < |trips| ==> all[j] == trips[j];
    assert all[|trips|] == t;
    assert DriverKind != VehicleKind;
    if AvailabilityOf(trips, t.vehicleId, t.start, t.end, VehicleKind).Free? &&
       AvailabilityOf(trips, t.driverId, t.start, t.end, DriverKind).Free? {
      forall i, j | 0 <= i < j < |all|
        ensures !Clash(all[i], all[j])
      {
        if j == |trips| {
          assert !ConflictsWith(trips[i], t.vehicleId, t.start, t.end, VehicleKind);
          assert !ConflictsWith(trips[i], t.driverId, t.start, t.end, DriverKind);
        }
      }
    } else {
      var i :| 0 <= i < |trips| &&
        (ConflictsWith(trips[i], t.vehicleId, t.start, t.end, VehicleKind) ||
         ConflictsWith(trips[i], t.driverId, t.start, t.end, DriverKind));
      if !ConflictsWith(trips[i], t.vehicleId, t.start, t.end, VehicleKind) {
        assert ConflictsWith(trips[i], t.driverId, t.start, t.end, DriverKind);
      }
      assert all[i] == trips[i];
      assert Clash(all[i], all[|trips|]);
    }
  }
}
