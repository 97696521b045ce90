/** The simulator's shared state, the clock and the vehicle position, together
    with the operations that advance it and the single-cycle driver. */
module Simulator {
  import opened RandomDraws
  import opened Route
  import opened Clock
  import opened Records

  /** The `uuid.uuid4()` values one cycle draws, one per record. */
  datatype CycleIds = CycleIds(vehicle: Uuid, gps: Uuid, traffic: Uuid, weather: Uuid)

  /** The random draws one cycle makes: the clock wait, the two movement draws,
      the GPS speed, the weather condition index and the four weather values. */
  datatype CycleDraws = CycleDraws(
    wait: int, latU: real, lonU: real, speed: int,
    pick: int, temperature: int, humidity: int, windSpeed: int, windDirection: int)
  {
    /** Values the library calls of one cycle can return. */
    predicate Possible() {
      IsWait(wait) && IsUnitDraw(latU) && IsUnitDraw(lonU) && IsRandInt(0, MaxSpeed, speed) &&
      0 <= pick < |Conditions| &&
      InConditionRanges(Conditions[pick], temperature, humidity, windSpeed, windDirection)
    }
  }

  /** The process-wide state: `start_time` and `start_location`. */
  class Simulation {
    var clock: Timestamp
    var latitude: real
    var longitude: real

    /** The history that explains the state: the start time, every wait the clock
        was advanced by and every pair of movement draws, oldest first. */
    ghost var origin: Timestamp
    ghost var waits: seq<int>
    ghost var latDraws: seq<real>
    ghost var lonDraws: seq<real>

    function Position(): Location
      reads this
    {
      Location(latitude, longitude)
    }

    /** The clock is its origin advanced by every wait so far, and the position is
        Jakarta moved by every pair of draws so far. */
    ghost predicate Valid()
      reads this
    {
      AllWaits(waits) && clock == ClockAfter(origin, waits) &&
      MoveDraws(latDraws, lonDraws) && Position() == Moves(Jakarta, latDraws, lonDraws)
    }

    /** The state at process start: the clock at `start` (`datetime.now()` in
        `main.py`) and the vehicle at a copy of the Jakarta coordinates. */
    constructor (start: Timestamp)
      ensures Valid()
      ensures clock == start && Position() == Jakarta
      ensures origin == start && waits == [] && latDraws == [] && lonDraws == []
    {
      clock := start;
      latitude, longitude := Jakarta.latitude, Jakarta.longitude;
      origin, waits, latDraws, lonDraws := start, [], [], [];
    }

    /** `get_next_timestamp`: advances the shared clock by the drawn wait and
        returns the new reading. */
    method NextTimestamp(seconds: int) returns (t: Timestamp)
      requires Valid() && IsWait(seconds)
      modifies this
      ensures Valid()
      ensures clock == old(clock) + seconds && t == clock
      ensures old(clock) + MinWait <= t <= old(clock) + MaxWait
      ensures waits == old(waits) + [seconds] && origin == old(origin)
      ensures origin + MinWait * |waits| <= clock <= origin + MaxWait * |waits|
      ensures Position() == old(Position()) && latDraws == old(latDraws) && lonDraws == old(lonDraws)
    {
      ClockAfterSnoc(origin, waits, seconds);
      clock := clock + seconds;
      waits := waits + [seconds];
      ClockBounds(origin, waits);
      t := clock;
    }

    /** `simulate_vehicle_movement`: moves the shared position by the increments and
        then by the jitter, and returns the new position. */
    method SimulateVehicleMovement(latU: real, lonU: real) returns (loc: Location)
      requires Valid() && IsUnitDraw(latU) && IsUnitDraw(lonU)
      modifies this
      ensures Valid()
      ensures Position() == Move(old(Position()), latU, lonU) && loc == Position()
      ensures latDraws == old(latDraws) + [latU] && lonDraws == old(lonDraws) + [lonU]
      ensures longitude == Jakarta.longitude + (|lonDraws| as real) * LongitudeStep
      ensures var n := |latDraws| as real;
        Jakarta.latitude + n * (LatitudeIncrement - JitterBound) <= latitude <=
        Jakarta.latitude + n * (LatitudeIncrement + JitterBound)
      ensures clock == old(clock) && waits == old(waits) && origin == old(origin)
    {
      MovesSnoc(Jakarta, latDraws, lonDraws, latU, lonU);
      latitude := latitude + LatitudeIncrement;
      longitude := longitude + LongitudeIncrement;
      latitude := latitude + LatitudeJitter(latU);
      longitude := longitude + LongitudeJitter(lonU);
      latDraws, lonDraws := latDraws + [latU], lonDraws + [lonU];
      LongitudeAfterMoves(Jakarta, latDraws, lonDraws);
      LatitudeAfterMoves(Jakarta, latDraws, lonDraws);
      loc := Position();
    }

    /** `generate_vehicle_data`: advances the clock once and describes the vehicle
        at the new reading. */
    method GenerateVehicleData(deviceId: string, id: Uuid, seconds: int) returns (v: VehicleRecord)
      requires Valid() && IsWait(seconds)
      modifies this
      ensures Valid()
      ensures clock == old(clock) + seconds && waits == old(waits) + [seconds]
      ensures v.id == id && v.deviceId == deviceId && v.timestamp == clock
      ensures v.make == VehicleMake && v.model == VehicleModel && v.year == VehicleYear && v.fuel == VehicleFuel
      ensures origin == old(origin) && Position() == old(Position())
      ensures latDraws == old(latDraws) && lonDraws == old(lonDraws)
    {
      var t := NextTimestamp(seconds);
      v := VehicleRecord(id, deviceId, t, VehicleMake, VehicleModel, VehicleYear, VehicleFuel);
    }

    /** `generate_gps_data`: moves the vehicle once and reports the new position
        with the drawn speed. */
    method GenerateGpsData(deviceId: string, timestamp: Timestamp, id: Uuid, latU: real, lonU: real,
                           speed: int, vehicleType: string := DefaultVehicleType) returns (g: GpsRecord)
      requires Valid() && IsUnitDraw(latU) && IsUnitDraw(lonU) && IsRandInt(0, MaxSpeed, speed)
      modifies this
      ensures Valid()
      ensures Position() == Move(old(Position()), latU, lonU)
      ensures latDraws == old(latDraws) + [latU] && lonDraws == old(lonDraws) + [lonU]
      ensures g.id == id && g.deviceId == deviceId && g.timestamp == timestamp
      ensures g.latitude == latitude && g.longitude == longitude
      ensures g.speed == speed && 0 <= g.speed <= MaxSpeed && g.vehicleType == vehicleType
      ensures clock == old(clock) && waits == old(waits) && origin == old(origin)
    {
      var location := SimulateVehicleMovement(latU, lonU);
      g := GpsRecord(id, deviceId, timestamp, location.latitude, location.longitude, speed, vehicleType);
    }

    /** `simulate_adventure`: one cycle of vehicle, GPS, traffic and weather records.
        `main.py` loops with `while True` and leaves with an unconditional `break`
        at the end of the first pass; `stop` plays the part of that `break`. */
    method SimulateAdventure(vehicleId: string, ids: CycleIds, draws: CycleDraws)
      returns (vehicle: VehicleRecord, gps: GpsRecord, traffic: TrafficRecord, weather: WeatherRecord)
      requires Valid() && draws.Possible()
      modifies this
      ensures Valid() && origin == old(origin)
      // the body ran once: the clock ticked once and the vehicle moved once
      ensures waits == old(waits) + [draws.wait] && clock == old(clock) + draws.wait
      ensures latDraws == old(latDraws) + [draws.latU] && lonDraws == old(lonDraws) + [draws.lonU]
      ensures Position() == Move(old(Position()), draws.latU, draws.lonU)
      // the vehicle record carries the device and the new clock reading
      ensures vehicle.id == ids.vehicle && vehicle.deviceId == vehicleId && vehicle.timestamp == clock
      ensures vehicle.make == VehicleMake && vehicle.model == VehicleModel
      ensures vehicle.year == VehicleYear && vehicle.fuel == VehicleFuel
      // every record shares the vehicle record's device id and timestamp
      ensures gps.deviceId == traffic.deviceId == weather.deviceId == vehicle.deviceId
      ensures gps.timestamp == traffic.timestamp == weather.timestamp == vehicle.timestamp
      // GPS reports the new position; weather is taken at the GPS position
      ensures gps.latitude == latitude && gps.longitude == longitude
      ensures weather.latitude == gps.latitude && weather.longitude == gps.longitude
      ensures gps == GpsRecord(ids.gps, vehicleId, clock, latitude, longitude, draws.speed, DefaultVehicleType)
      ensures traffic == GenerateTrafficData(vehicleId, clock, ids.traffic)
      ensures weather == GenerateWeatherData(vehicleId, clock, latitude, longitude, ids.weather, draws.pick,
                                             draws.temperature, draws.humidity, draws.windSpeed, draws.windDirection)
    {
      // `main.py` binds the records inside the loop body
      vehicle, gps, traffic, weather := *, *, *, *;
      var stop := false;
      while !stop
        invariant Valid() && origin == old(origin)
        invariant !stop ==> waits == old(waits) && latDraws == old(latDraws) && lonDraws == old(lonDraws)
        invariant stop ==> waits == old(waits) + [draws.wait]
        invariant stop ==> latDraws == old(latDraws) + [draws.latU] && lonDraws == old(lonDraws) + [draws.lonU]
        invariant stop ==> vehicle == VehicleRecord(ids.vehicle, vehicleId, clock, VehicleMake, VehicleModel,
                                                    VehicleYear, VehicleFuel)
        invariant stop ==> gps == GpsRecord(ids.gps, vehicleId, clock, latitude, longitude, draws.speed,
                                            DefaultVehicleType)
        invariant stop ==> traffic == GenerateTrafficData(vehicleId, clock, ids.traffic)
        invariant stop ==> weather == GenerateWeatherData(vehicleId, clock, latitude, longitude, ids.weather,
                                                          draws.pick, draws.temperature, draws.humidity,
                                                          draws.windSpeed, draws.windDirection)
        decreases !stop
      {
        vehicle := GenerateVehicleData(vehicleId, ids.vehicle, draws.wait);
        gps := GenerateGpsData(vehicle.deviceId, vehicle.timestamp, ids.gps, draws.latU, draws.lonU, draws.speed);
        traffic := GenerateTrafficData(vehicle.deviceId, vehicle.timestamp, ids.traffic);
        weather := GenerateWeatherData(vehicle.deviceId, vehicle.timestamp, gps.latitude, gps.longitude, ids.weather,
                                       draws.pick, draws.temperature, draws.humidity, draws.windSpeed,
                                       draws.windDirection);
        stop := true;
      }
      MovesSnoc(Jakarta, old(latDraws), old(lonDraws), draws.latU, draws.lonU);
      ClockAfterSnoc(origin, old(waits), draws.wait);
    }
  }
}
