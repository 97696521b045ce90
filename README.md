# Smart-vehicle telemetry simulator, modelled in Dafny

This project models the simulator in `src/smart_city/jobs/main.py`. The simulator
builds synthetic telemetry for one vehicle driving from Jakarta. Two pieces of
process-wide state are at its core:

- a simulation clock (`start_time`), which `get_next_timestamp` pushes forward by a
  random 30 to 60 whole seconds on every call;
- a vehicle position (`start_location`), which starts as a copy of the Jakarta
  coordinates. `simulate_vehicle_movement` adds a fixed per-axis increment to it,
  then adds a jitter.

Four builders read this state to make records: vehicle, GPS, traffic camera and
weather. `simulate_adventure` runs one cycle of them.

The model has five modules, one file each:

- `RandomDraws` (`random_draws.dfy`): `random.uniform`, computed the way Python does
  it, as `a + (b - a) * u` from a value `u` of `random.random()`. Also the range that
  `random.randint` draws from. Every draw is a value the caller supplies, so every
  operation is deterministic.
- `Route` (`route.dfy`):
  - the two cities and the increments `(Jakarta - Surabaya) / 100`;
  - the two jitters and one move, all as functions on values;
  - `Moves`, the position after any number of moves;
  - lemmas about whole trajectories.
- `Clock` (`clock.dfy`): the clock as integer seconds from an arbitrary origin.
  `ClockAfter` gives the reading after any number of ticks; lemmas bound it and show
  that it strictly increases.
- `Records` (`records.dfy`): one datatype per record kind, plus the two builders
  that touch no shared state, `generate_traffic_data` and `generate_weather_data`.
- `Simulator` (`simulator.dfy`): the class `Simulation`.
  - Its fields `clock`, `latitude` and `longitude` are the global state.
  - Its methods are `get_next_timestamp`, `simulate_vehicle_movement`,
    `generate_vehicle_data`, `generate_gps_data` and `simulate_adventure`.
  - Ghost fields record the history: the origin, every wait, and every pair of
    movement draws.
  - The invariant `Valid()` ties the fields to that history through `ClockAfter`
    and `Moves`. Every method preserves it.

Two behaviours of the code as written are modelled as they are and proved:

- The longitude jitter is `random.uniform(-0.0005, -0.0005)`. Both bounds are equal,
  so it is always -0.0005 (`Route.LongitudeJitter`). The longitude after n moves is
  therefore fully determined (`Route.LongitudeAfterMoves`).
- The increments are Jakarta minus Surabaya. They point north and west, while
  Surabaya lies south-east of Jakarta. So the comment "move towards Surabaya" does not
  hold: every move takes the vehicle further from Surabaya on both axes, and nothing
  clamps or stops it (`Route.IncrementDirections`, `Route.MovesAwayFromSurabaya`).

The comments at `main.py:18` and `main.py:96` say the vehicle moves towards
Surabaya, and `main.py:100` says randomness is added to the movement. The model
follows the code on both points.

`simulate_adventure` loops with `while True` and leaves through an unconditional
`break` at the end of the first pass. The model writes this as `while !stop`, with
`stop := true` where the `break` is. The loop invariants show that the body runs
exactly once.

## Model

| member | source | states |
|---|---|---|
| Route.IncrementDirections | src/smart_city/jobs/main.py:8-20 | the increments are (Jakarta - Surabaya)/100: exactly 0.01074167 (north) and -0.05935433 (west); the latitude increment exceeds the jitter bound; Surabaya lies south-east of Jakarta |
| Route.LatitudeJitter | src/smart_city/jobs/main.py:101 | the latitude jitter lies in [-0.0005, 0.0005) and is zero exactly when the underlying draw is 0.5 |
| Route.LongitudeJitter | src/smart_city/jobs/main.py:102 | the degenerate `uniform(-0.0005, -0.0005)` is -0.0005 whatever the draw |
| Route.Move | src/smart_city/jobs/main.py:93-104 | one move changes latitude by the increment ± 0.0005 and longitude by exactly the increment - 0.0005; latitude strictly rises and longitude strictly falls |
| Route.LongitudeAfterMoves | src/smart_city/jobs/main.py:96-102 | after n moves from any start, longitude = start + n·(LONGITUDE_INCREMENT - 0.0005), whatever the draws |
| Route.LatitudeAfterMoves | src/smart_city/jobs/main.py:96-101 | after n moves, latitude lies between start + n·(increment - 0.0005) and start + n·(increment + 0.0005) |
| Route.LatitudeWithoutJitter | src/smart_city/jobs/main.py:96-101 | with zero latitude jitter on every move, latitude after n moves = start + n·LATITUDE_INCREMENT |
| Route.MovesAwayFromSurabaya | src/smart_city/jobs/main.py:18-20 | from Jakarta, after one or more moves the vehicle is strictly further from Surabaya on both axes than Jakarta is, and never at Surabaya |
| Clock.ClockBounds | src/smart_city/jobs/main.py:33-37 | after n ticks the clock reads between origin + 30n and origin + 60n |
| Clock.ClockIncreases | src/smart_city/jobs/main.py:33-37 | a later reading exceeds an earlier one by at least 30 seconds per tick in between, so the clock strictly increases |
| Records.GenerateTrafficData | src/smart_city/jobs/main.py:51-58 | device id and timestamp pass through unchanged; camera id defaults to front-dash-camera-1; snapshot is the fixed placeholder |
| Records.GenerateWeatherData | src/smart_city/jobs/main.py:60-91 | condition is the one `random.choice` picked; temperature, humidity, wind speed and wind direction are the drawn values, so they lie in that condition's ranges and wind direction in [0, 360]; feels-like = temperature + 0.33·humidity - 0.7·wind speed - 4 over the record's own fields, hence within [29, 57.1], [22.2, 45.8] or [25.5, 39.6] by condition; latitude and longitude are the arguments |
| Simulator.Simulation.constructor | src/smart_city/jobs/main.py:30-31 | the clock starts at the given start time and the position at Jakarta, with empty history |
| Simulator.Simulation.NextTimestamp | src/smart_city/jobs/main.py:33-37 | the clock advances by the drawn wait, in [30, 60], and the new reading is returned; the position is unchanged; after n ticks the clock lies within [origin + 30n, origin + 60n] |
| Simulator.Simulation.SimulateVehicleMovement | src/smart_city/jobs/main.py:93-104 | the position becomes `Move` of the old one and is returned; longitude is Jakarta + n·(increment - 0.0005) after the n-th move; latitude stays within the jitter band; the clock is unchanged |
| Simulator.Simulation.GenerateVehicleData | src/smart_city/jobs/main.py:106-115 | the clock advances exactly once; the record carries the device id, the new reading and Toyota/Camry/2018/Hybrid; the position is unchanged |
| Simulator.Simulation.GenerateGpsData | src/smart_city/jobs/main.py:39-49 | the vehicle moves exactly once; the record carries the new position, the device id and timestamp given, a speed in [0, 80] and the vehicle type, which defaults to private; the clock is unchanged |
| Simulator.Simulation.SimulateAdventure | src/smart_city/jobs/main.py:117-131 | one cycle: the clock ticks once and the vehicle moves once; all four records share the vehicle record's device id and timestamp; the GPS record is at the new position and the weather record at the GPS position |

## Left out

- Kafka: the producer configuration and construction, and the unused `producer`
  parameter of `simulate_adventure`. They call a foreign library, and no message is
  ever sent.
- The topic and broker settings read from environment variables. This is I/O
  configuration with no logic.
- `uuid.uuid4()`: ids are opaque values the caller supplies (`Records.Uuid`). Their
  uniqueness is a property of the library, not of this code.
- `random`: every draw is a parameter.
  - `randint` draws are integers that the preconditions keep in the range the code
    passes.
  - `uniform` is computed from a `random.random()` value in [0, 1).
  - `choice` is an index into the condition list.
- Route.LatitudeJitter: over reals the jitter never equals the upper bound 0.0005.
  Python's floating-point `uniform` may reach it by rounding.
- `datetime.now()`, `timedelta` and `.isoformat()`: the clock is integer seconds from
  a start value the caller supplies. Timestamps are those integers, not ISO-8601
  strings.
- The `'{:.2f}'` formatting of `feels_like`, and IEEE rounding in the coordinate
  sums. Values are exact reals, and `feels_like` is the unrounded formula.
- Aliasing: `simulate_vehicle_movement` returns the global location dictionary
  itself. The model returns a copy of the position. The copy cannot differ from the
  alias in any observable way, because `generate_gps_data` copies both coordinates
  into its record at once.
- `print` of the four records, and the `KeyboardInterrupt`/`Exception` handlers and
  logging in `__main__`. This is process I/O and lifecycle. The records are returned
  instead of printed.
