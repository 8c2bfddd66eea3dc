# RCWL9620 ultrasonic distance unit — a Dafny model

This project models the core of the M5Stack RCWL9620 ultrasonic distance
driver (M5Unit-DISTANCE):

- **Raw sample** (`Measurement`): the three bytes a reading consists of, their
  big-endian packing into a distance in micrometres (`raw_distance`), and the
  distance in millimetres clamped to [20, 4500] (`distance`).
- **History** (`History`): the bounded buffer of samples, kept abstract as a
  sequence with a fixed capacity whose `push_back` evicts the oldest sample.
- **Periodic-measurement state machine** (`Rcwl9620`): the class
  `UnitRCWL9620` with the fields `_cfg`, `_data`, `_periodic`, `_interval`,
  `_latest` and `_updated`, and its operations `begin`, `update`,
  `start_periodic_measurement` (both overloads), `stop_periodic_measurement`,
  `read_measurement`, `config`, and `distance`. Each state-changing method is
  proved against a pure step function (`StartStep`, `UpdateStep`) or states its
  new state directly; the properties of the step functions are their ensures.
- **Device variants** (`UltraSonic`): `UnitUltraSonicI2C` and
  `UnitUltraSonicIO`, whose `begin` refuses an adapter of the wrong kind before
  delegating to the shared `begin`, and the GPIO variant's 50 ms minimum
  interval.

Hardware and clock calls are inputs of the operations: `now` stands for
`millis()`, `requestOk` for the result of the register write made by
`request_measurement`, an `Option<Raw>` for a read transaction (`None` when
it fails), and `answers(k)` for the k-th read of the drain loop in
`stop_periodic_measurement`. `delay` has no effect on the state; the wait
before the drain is returned so that its bound can be stated.

Behaviour worth knowing that the contracts make explicit:

- `update` treats `_latest == 0` as "never sampled" and reads at once.
- When `update`'s re-arm request fails, the sample just read stays in the
  history and `updated()` is true, but periodic mode is off.
- `stop_periodic_measurement` computes the wait as the interval minus the time
  since the last sample, in unsigned 32-bit arithmetic, and clamps it to the
  interval. When the reading is overdue, the subtraction wraps and the clamp
  makes it wait a full interval rather than not at all. The wait never exceeds
  the interval.
- The drain loop starts its counter at 8 and tests it by post-decrement, so it
  makes up to 9 reads. Periodic mode ends only when one of them succeeds.

## Model

| member | source | states |
|---|---|---|
| Measurement.RawDistance | src/unit/unit_RCWL9620.hpp:44-47 | the packed value of three bytes never exceeds 0xFFFFFF |
| Measurement.ShiftOrIsWeightedSum | src/unit/unit_RCWL9620.hpp:44-47 | on 32-bit words, or-ing byte0<<16, byte1<<8 and byte2 equals byte0*65536 + byte1*256 + byte2, and is at most 0xFFFFFF |
| Measurement.Unpack | src/unit/unit_RCWL9620.hpp:44-47 | every value up to 0xFFFFFF is the packing of the bytes taken back from it by shift and mask |
| Measurement.UnpackRawDistance | src/unit/unit_RCWL9620.hpp:44-47 | each byte of a sample is recovered from its packed value |
| Measurement.RawDistanceInjective | src/unit/unit_RCWL9620.hpp:44-47 | two samples pack to the same value exactly when their bytes are equal |
| Measurement.Distance | src/unit/unit_RCWL9620.hpp:35-43 | the distance always lies in [MIN_DISTANCE, MAX_DISTANCE] = [20, 4500] mm |
| Measurement.DistanceFollowsReading | src/unit/unit_RCWL9620.hpp:39-43 | the distance is raw_distance/1000 inside [20, 4500], 20 below that range and 4500 above it |
| Measurement.DistanceMonotone | src/unit/unit_RCWL9620.hpp:39-43 | a larger packed value never gives a smaller distance |
| Measurement.SentinelDistance | src/unit/unit_RCWL9620.cpp:115 | the 0xFF pre-fill packs to 16777215 and reads as 4500 mm |
| Measurement.ZeroDistance | src/unit/unit_RCWL9620.hpp:41-47 | an all-zero sample packs to 0 and reads as 20 mm |
| History.Push | src/unit/unit_RCWL9620.cpp:54 | push_back leaves the newest `capacity` elements of the old contents plus the new sample, the new sample last |
| History.PushAllKeepsNewest | src/unit/unit_RCWL9620.cpp:54 | after any number of pushes the buffer holds exactly the most recent `capacity` samples, oldest first |
| History.OverflowEvictsOldest | src/unit/unit_RCWL9620.cpp:54 | pushing capacity + 1 samples into an empty buffer keeps all but the first |
| History.CircularBuffer.constructor | src/unit/unit_RCWL9620.cpp:34 | a new buffer is empty and has the requested capacity |
| History.CircularBuffer.PushBack | src/unit/unit_RCWL9620.cpp:54 | the contents become Push of the old contents, and size stays within capacity |
| Rcwl9620.StartStep | src/unit/unit_RCWL9620.cpp:65-77 | while periodic: returns false and changes nothing; from idle: periodic and the result both become the request's outcome, and interval and latest are set to the argument and `now` only on success |
| Rcwl9620.UpdateStep | src/unit/unit_RCWL9620.cpp:44-62 | updated is true exactly when a read was due and succeeded; otherwise only updated (cleared) changes; on success the sample is newest in the history, latest is the entry time, and periodic stays on exactly when the re-arm succeeds |
| Rcwl9620.ForcedUpdatesKeepNewest | src/unit/unit_RCWL9620.cpp:44-62 | with every read and re-arm succeeding, periodic mode stays on and the history holds the newest `capacity` of the old contents and the new samples |
| Rcwl9620.DrainWait | src/unit/unit_RCWL9620.cpp:88-93 | the wait never exceeds the interval; it is the remaining time when the reading is not yet due and a full interval when it is overdue |
| Rcwl9620.ReadMeasurement | src/unit/unit_RCWL9620.cpp:113-116 | succeeds exactly when the transaction does; the bytes are the transaction's on success and the 0xFF pre-fill otherwise |
| Rcwl9620.ReadSample | src/unit/unit_RCWL9620.cpp:50-51 | a fresh sample read in place holds the transaction's bytes on success and the 0xFF pre-fill on failure |
| Rcwl9620.DrainPending | src/unit/unit_RCWL9620.cpp:95-103 | makes 1 to 9 reads, stops at the first success, succeeds exactly when one of the first 9 reads succeeds, and makes all 9 when none does |
| Rcwl9620.UnitRCWL9620.constructor | src/unit/unit_RCWL9620.hpp:64-77 | default config (start_periodic true, 150 ms), history of capacity 1 and empty, not periodic |
| Rcwl9620.UnitRCWL9620.SetConfig | src/unit/unit_RCWL9620.hpp:88-96 | the next config() (GetConfig, hpp:88-91) returns the configuration set; nothing else changes |
| Rcwl9620.UnitRCWL9620.Distance | src/unit/unit_RCWL9620.hpp:102-105 | nothing (NaN) exactly when the history is empty (CircularBuffer.Empty); otherwise the oldest sample's (CircularBuffer.Oldest) distance, within [20, 4500] |
| Rcwl9620.UnitRCWL9620.Begin | src/unit/unit_RCWL9620.cpp:29-42 | a different stored size gives a fresh empty history of that capacity, the same size keeps the history; without auto-start it returns true and keeps the periodic state, with it it behaves as StartStep with the configured interval |
| Rcwl9620.UnitRCWL9620.Update | src/unit/unit_RCWL9620.cpp:44-62 | the new periodic state and history are UpdateStep of the old ones; configuration and buffer object unchanged |
| Rcwl9620.UnitRCWL9620.StartPeriodicMeasurement | src/unit/unit_RCWL9620.cpp:65-77 | the new periodic state and result are StartStep of the old state |
| Rcwl9620.UnitRCWL9620.StartPeriodicMeasurementAtCurrentInterval | src/unit/unit_RCWL9620.cpp:79-82 | StartStep with the interval already held |
| Rcwl9620.UnitRCWL9620.StopPeriodicMeasurement | src/unit/unit_RCWL9620.cpp:84-106 | idle: returns false and changes nothing; periodic: waits at most one interval, returns true and leaves periodic mode exactly when the drain succeeds, otherwise stays periodic |
| UltraSonic.UnitUltraSonicI2C.constructor | src/unit/unit_UltraSonic.hpp:22-28 | a unit at address 0x57 with the default configuration, an empty history of capacity 1, and the periodic fields at false, 0, 0, false |
| UltraSonic.UnitUltraSonicI2C.Begin | src/unit/unit_UltraSonic.cpp:24-31 | a non-I2C adapter gives false and leaves the unit untouched; an I2C adapter gives exactly the shared begin's result and effect |
| UltraSonic.UnitUltraSonicIO.constructor | src/unit/unit_UltraSonic.hpp:36-42 | a unit at address 0x00 with the default configuration, an empty history of capacity 1, and the periodic fields at false, 0, 0, false |
| UltraSonic.UnitUltraSonicIO.MinimumInterval | src/unit/unit_UltraSonic.hpp:46-49 | the GPIO variant's minimum-interval constant (50 ms) is below the base unit's documented 150 ms floor and is met by the default 150 ms interval; a recorded constant, not used elsewhere because the interval gate is left out |
| UltraSonic.UnitUltraSonicIO.Begin | src/unit/unit_UltraSonic.cpp:38-50 | a non-GPIO adapter gives false and leaves the unit untouched whatever the PbHub parent check finds; a GPIO adapter gives exactly the shared begin's result and effect |

## Left out

- measureSingleshot: declared at src/unit/unit_RCWL9620.hpp:138 but its definition is not part of this model; its "fails during periodic measurement" contract is not modelled.
- The minimum-interval check: the framework's periodic-measurement adapter, which calls start_periodic_measurement and may enforce minimum_interval(), is not part of this model; only the GPIO variant's override constant is.
- The circular buffer's implementation (m5_utility) is not part of this model; it is a sequence with a fixed capacity. Its discard, flush, available and full are not modelled.
- Allocation failure in begin (the `!_data` branch): allocation always succeeds in the model.
- The stored size comes from the component configuration of the framework; begin takes it as an argument, and its requirement that it be positive is the source's assertion.
- updatedMillis() is part of the adapter macro, which is not part of this model; it is taken to be `_latest`. The initial values of the adapter's fields are taken to be false and 0.
- Timestamps and intervals are unbounded naturals: wrap-around of millis() and of `_latest + _interval` is not modelled. Only the subtraction in stop_periodic_measurement is done modulo 2^32, because its clamp depends on it.
- Float rounding of distance(): distances are real numbers.
- GPIO pulse timing, the speed-of-sound conversion and the I2C transaction itself (writeRegister, readWithTransaction) are inputs, not modelled code. A failed transaction is taken to leave the 0xFF pre-fill untouched.
- delay(): the 1 ms pauses of the drain loop have no effect on the model; the wait before the drain is returned as a number.
- The I2C clock setting in the constructor and all logging.
