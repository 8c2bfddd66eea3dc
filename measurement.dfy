/**
 * One raw sample of the RCWL9620 (rcwl9620::Data): the three bytes the sensor
 * answers with, their big-endian packing into a distance in micrometres, and
 * the distance in millimetres clamped to the sensor's range.
 *
 * Distances are real numbers here; the single-precision rounding of the C++
 * driver's distance() is not modelled.
 */
module Measurement {

  type Byte = b: int | 0 <= b < 256

  /** The three raw bytes of one reading (std::array<uint8_t, 3>). */
  type Raw = s: seq<Byte> | |s| == 3 witness [0, 0, 0]

  datatype Data = Data(raw: Raw)

  /** Largest reported distance (mm). */
  const MAX_DISTANCE: real := 4500.0
  /** Smallest reported distance (mm). */
  const MIN_DISTANCE: real := 20.0

  /** Largest value three bytes can pack to. */
  const MAX_RAW_DISTANCE: nat := 0xFF_FFFF

  /** The pattern read_measurement writes into the buffer before each transaction. */
  const SENTINEL: Raw := [0xFF, 0xFF, 0xFF]

  /** A value-initialised sample (`Data d{}`): all bytes zero. */
  const ZERO: Data := Data([0, 0, 0])

  /**
   * raw_distance() in micrometres. The C++ driver's raw_distance() shifts the
   * bytes by 16, 8 and 0 bits and or-s them; the fields do not overlap, so
   * that is the sum below
   * (ShiftOrIsWeightedSum states the equivalence on 32-bit words).
   */
  function RawDistance(d: Data): (v: nat)
    ensures v <= MAX_RAW_DISTANCE
  {
    (d.raw[0] as int) * 0x1_0000 + (d.raw[1] as int) * 0x100 + d.raw[2] as int
  }

  /** On 32-bit words, or-ing the shifted bytes equals their weighted sum. */
  lemma ShiftOrIsWeightedSum(b0: bv32, b1: bv32, b2: bv32)
    requires b0 < 256 && b1 < 256 && b2 < 256
    ensures (b0 << 16) | (b1 << 8) | b2 == b0 * 0x1_0000 + b1 * 0x100 + b2
    ensures (b0 << 16) | (b1 << 8) | b2 <= 0xFF_FFFF
  {
  }

  /** The sample whose packing is `v`: each byte taken back by shift and mask. */
  function Unpack(v: nat): (d: Data)
    requires v <= MAX_RAW_DISTANCE
    ensures RawDistance(d) == v
  {
    Data([v / 0x1_0000, (v / 0x100) % 0x100, v % 0x100])
  }

  /** Every byte of a sample is recoverable from its packing. */
  lemma UnpackRawDistance(d: Data)
    ensures Unpack(RawDistance(d)) == d
  {
  }

  /** Different byte triples never pack to the same distance. */
  lemma RawDistanceInjective(a: Data, b: Data)
    ensures RawDistance(a) == RawDistance(b) <==> a == b
  {
    // equal packings unpack to the same bytes
    UnpackRawDistance(a);
    UnpackRawDistance(b);
  }

  /** The packed value converted from micrometres to millimetres, before clamping. */
  function Millimetres(d: Data): real
  {
    RawDistance(d) as real / 1000.0
  }

  /** distance(): millimetres limited to [MIN_DISTANCE, MAX_DISTANCE] by fmin, then fmax. */
  function Distance(d: Data): (mm: real)
    ensures MIN_DISTANCE <= mm <= MAX_DISTANCE
  {
    var fd := Millimetres(d);
    var capped := if fd < MAX_DISTANCE then fd else MAX_DISTANCE;
    if capped > MIN_DISTANCE then capped else MIN_DISTANCE
  }

  /** Inside the sensor's range the distance is the reading itself; outside it is the nearer bound. */
  lemma DistanceFollowsReading(d: Data)
    ensures MIN_DISTANCE <= Millimetres(d) <= MAX_DISTANCE ==> Distance(d) == Millimetres(d)
    ensures Millimetres(d) < MIN_DISTANCE ==> Distance(d) == MIN_DISTANCE
    ensures Millimetres(d) > MAX_DISTANCE ==> Distance(d) == MAX_DISTANCE
  {
  }

  /** A larger packed value never gives a smaller distance. */
  lemma DistanceMonotone(a: Data, b: Data)
    requires RawDistance(a) <= RawDistance(b)
    ensures Distance(a) <= Distance(b)
  {
  }

  /** The buffer pre-fill packs to the largest raw value and reads as the far bound. */
  lemma SentinelDistance()
    ensures RawDistance(Data(SENTINEL)) == 16_777_215
    ensures Distance(Data(SENTINEL)) == MAX_DISTANCE
  {
  }

  /** An all-zero sample packs to zero and reads as the near bound. */
  lemma ZeroDistance()
    ensures RawDistance(ZERO) == 0
    ensures Distance(ZERO) == MIN_DISTANCE
  {
  }
}
