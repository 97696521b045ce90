/** The four telemetry records the simulator builds, and the two builders that
    need no shared state: `generate_traffic_data` and `generate_weather_data`. */
module Records {
  import opened RandomDraws
  import opened Clock

  /** A value of `uuid.uuid4()`, supplied by the caller; nothing is assumed about it. */
  type Uuid = nat

  datatype VehicleRecord = VehicleRecord(
    id: Uuid, deviceId: string, timestamp: Timestamp,
    make: string, model: string, year: int, fuel: string)

  datatype GpsRecord = GpsRecord(
    id: Uuid, deviceId: string, timestamp: Timestamp,
    latitude: real, longitude: real, speed: int, vehicleType: string)

  datatype TrafficRecord = TrafficRecord(
    id: Uuid, deviceId: string, timestamp: Timestamp,
    cameraId: string, snapshot: string)

  datatype Condition = Sunny | Cloudy | Rainy {
    /** The string the record carries for this condition. */
    function Name(): string {
      match this
      case Sunny => "sunny"
      case Cloudy => "cloudy"
      case Rainy => "rainy"
    }
  }

  datatype WeatherRecord = WeatherRecord(
    id: Uuid, deviceId: string, timestamp: Timestamp,
    latitude: real, longitude: real, condition: Condition,
    temperature: int, feelsLike: real, humidity: int, windSpeed: int, windDirection: int)

  /** The fixed vehicle descriptor. */
  const VehicleMake: string := "Toyota"
  const VehicleModel: string := "Camry"
  const VehicleYear: int := 2018
  const VehicleFuel: string := "Hybrid"

  /** `random.randint(0, 80)` bounds for the GPS speed, and the default vehicle type. */
  const MaxSpeed: int := 80
  const DefaultVehicleType: string := "private"

  const DefaultCameraId: string := "front-dash-camera-1"
  const SnapshotPlaceholder: string := "Base64EncodedString"

  /** The list `random.choice` picks the weather condition from, in the order `main.py` lists them. */
  const Conditions: seq<Condition> := [Sunny, Cloudy, Rainy]

  /** The `random.randint` ranges each condition draws temperature (deg C), humidity (%),
      wind speed and wind direction (degrees) from. */
  predicate InConditionRanges(c: Condition, temperature: int, humidity: int, windSpeed: int, windDirection: int) {
    IsRandInt(0, 360, windDirection) &&
    match c
    case Sunny => IsRandInt(20, 38, temperature) && IsRandInt(50, 70, humidity) && IsRandInt(0, 5, windSpeed)
    case Cloudy => IsRandInt(20, 30, temperature) && IsRandInt(40, 60, humidity) && IsRandInt(0, 10, windSpeed)
    case Rainy => IsRandInt(20, 24, temperature) && IsRandInt(50, 70, humidity) && IsRandInt(5, 10, windSpeed)
  }

  /** `generate_traffic_data`: device id and timestamp pass through, the camera id
      defaults to the front dash camera and the snapshot is a fixed placeholder. */
  function GenerateTrafficData(deviceId: string, timestamp: Timestamp, id: Uuid,
                               cameraId: string := DefaultCameraId): (r: TrafficRecord)
    ensures r.id == id && r.deviceId == deviceId && r.timestamp == timestamp
    ensures r.cameraId == cameraId && r.snapshot == SnapshotPlaceholder
  {
    TrafficRecord(id, deviceId, timestamp, cameraId, SnapshotPlaceholder)
  }

  /** `generate_weather_data`, given the index `pick` that `random.choice` drew and
      the four `random.randint` draws for that condition. */
  function GenerateWeatherData(deviceId: string, timestamp: Timestamp, latitude: real, longitude: real,
                               id: Uuid, pick: int, temperature: int, humidity: int,
                               windSpeed: int, windDirection: int): (r: WeatherRecord)
    requires 0 <= pick < |Conditions|
    requires InConditionRanges(Conditions[pick], temperature, humidity, windSpeed, windDirection)
    ensures r.id == id && r.deviceId == deviceId && r.timestamp == timestamp
    ensures r.latitude == latitude && r.longitude == longitude
    ensures r.condition == Conditions[pick]
    ensures r.temperature == temperature && r.humidity == humidity
    ensures r.windSpeed == windSpeed && r.windDirection == windDirection
    ensures InConditionRanges(r.condition, r.temperature, r.humidity, r.windSpeed, r.windDirection)
    ensures r.feelsLike == r.temperature as real + 0.33 * r.humidity as real - 0.7 * r.windSpeed as real - 4.0
    ensures match r.condition
      case Sunny => 29.0 <= r.feelsLike <= 57.1
      case Cloudy => 22.2 <= r.feelsLike <= 45.8
      case Rainy => 25.5 <= r.feelsLike <= 39.6
  {
    var condition := Conditions[pick];
    var feelsLike := temperature as real + 0.33 * humidity as real - 0.7 * windSpeed as real - 4.0;
    WeatherRecord(id, deviceId, timestamp, latitude, longitude, condition,
                  temperature, feelsLike, humidity, windSpeed, windDirection)
  }
}
