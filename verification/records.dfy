/** The catalog entries and the trip record kept by the fleet store. */
module Records {

  /** Status of a vehicle or a driver: "Disponível" until a booking names
      it, "Agendado" afterwards. */
  datatype ResourceStatus = Available | Booked

  /** Status a trip is stored with ("Agendada"). */
  datatype TripStatus = Scheduled

  /** A vehicle: fuel consumption in km per litre and tank capacity in
      litres. */
  datatype Vehicle = Vehicle(
    id: string,
    name: string,
    consumption: real,
    tank: int,
    plate: string,
    status: ResourceStatus)

  datatype Driver = Driver(
    id: string,
    name: string,
    license: string,
    photoUrl: string,
    status: ResourceStatus)

  /** A booked trip. `start` and `end` are timestamps in seconds and bound
      the half-open window `[start, end)` the trip occupies. */
  datatype Trip = Trip(
    id: string,
    origin: string,
    destination: string,
    distanceKm: real,
    finalPrice: real,
    profit: real,
    driverCost: real,
    vehicleId: string,
    driverId: string,
    start: int,
    end: int,
    durationDays: int,
    plannedStops: int,
    status: TripStatus)

  /** The seed catalog the service starts with. */
  const SeedTrucks: map<string, Vehicle> := map[
    "vuc-01" := Vehicle("vuc-01", "VUC (Veículo Urbano)", 6.0, 150, "ABC-1234", Available),
    "carreta-01" := Vehicle("carreta-01", "Carreta LS", 2.5, 600, "GHI-9012", Available)]

  const SeedDrivers: map<string, Driver> := map[
    "mot-01" := Driver("mot-01", "Carlos Silva", "1234567890", "https://ui-avatars.com/api/?name=Carlos+Silva&background=0D8ABC&color=fff", Available),
    "mot-02" := Driver("mot-02", "Ana Pereira", "0987654321", "https://ui-avatars.com/api/?name=Ana+Pereira&background=random", Available)]
}
