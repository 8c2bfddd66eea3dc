/**
 * UnitRCWL9620: the periodic-measurement state machine of the ultrasonic
 * distance unit, shared by the I2C and GPIO variants.
 *
 * Calls into the hardware and the clock are inputs of the operations:
 *  - `now` is the value millis() returns when the operation reads the clock;
 *  - `requestOk` is the outcome of request_measurement (the register write
 *    of MEASURE_DISTANCE);
 *  - a read transaction answers `Some(bytes)` when it succeeds, `None` when
 *    it fails;
 *  - delay(ms) is either returned as a wait (before the drain of
 *    stop_periodic_measurement) or has no effect on the model.
 */
module Rcwl9620 {
  import opened Options
  import opened Measurement
  import opened History

  /** I2C address of the unit. */
  const DEFAULT_ADDRESS: Byte := 0x57
  /** Register written by request_measurement. */
  const MEASURE_DISTANCE: Byte := 0x01
  /** The smallest interval the unit's documentation allows (ms). */
  const DOCUMENTED_MIN_INTERVAL_MS: nat := 150
  /** Capacity of the history when the unit is constructed. */
  const INITIAL_CAPACITY: nat := 1
  /** Initial value of the drain counter in stop_periodic_measurement. */
  const DRAIN_RETRIES: nat := 8
  /** Reads the drain loop makes at most: the first one plus one per retry. */
  const DRAIN_READS: nat := DRAIN_RETRIES + 1
  /** Arithmetic on the target's 32-bit unsigned integers is modulo this. */
  const U32_MODULUS: nat := 0x1_0000_0000

  /** config_t: settings read by begin. */
  datatype Config = Config(startPeriodic: bool, intervalMs: nat)

  const DEFAULT_CONFIG: Config := Config(true, 150)

  /** The fields of the periodic-measurement adapter: _periodic, _interval, _latest, _updated. */
  datatype Periodic = Periodic(active: bool, interval: nat, latest: nat, updated: bool)

  /** start_periodic_measurement(interval) on the adapter fields. */
  function StartStep(p: Periodic, interval: nat, now: nat, requestOk: bool): (r: (Periodic, bool))
    ensures p.active ==> r == (p, false)
    ensures !p.active ==> r.1 == requestOk && r.0.active == requestOk
    ensures !p.active && requestOk ==> r.0.interval == interval && r.0.latest == now
    ensures !requestOk ==> r.0 == p
    ensures r.0.updated == p.updated
  {
    if p.active || !requestOk then (p, false)
    else (p.(active := true, interval := interval, latest := now), true)
  }

  /** update reads the sensor when periodic and either forced, never sampled
      (_latest == 0), or at least one interval past the last sample. */
  predicate ReadDue(p: Periodic, force: bool, now: nat)
  {
    p.active && (force || p.latest == 0 || now >= p.latest + p.interval)
  }

  /** update(force) on the adapter fields and the history contents. */
  function UpdateStep(p: Periodic, items: seq<Data>, capacity: nat, force: bool, now: nat,
                      reply: Option<Raw>, rearmOk: bool): (r: (Periodic, seq<Data>))
    requires |items| <= capacity
    ensures r.0.updated <==> ReadDue(p, force, now) && reply.Some?
    ensures !r.0.updated ==> r == (p.(updated := false), items)
    ensures r.0.updated ==> r.1 == Push(items, Data(reply.value), capacity)
                            && (capacity > 0 ==> r.1[|r.1| - 1] == Data(reply.value))
                            && r.0.latest == now && r.0.interval == p.interval
    ensures r.0.updated ==> (r.0.active <==> rearmOk)
    ensures r.0.active ==> p.active
    ensures |r.1| <= capacity
  {
    if ReadDue(p, force, now) && reply.Some? then
      (Periodic(rearmOk, p.interval, now, true), Push(items, Data(reply.value), capacity))
    else
      (p.(updated := false), items)
  }

  /** Forced update calls, one per sample of `samples`, each read succeeding with
      that sample and each re-arm succeeding. */
  function ForcedUpdates(p: Periodic, items: seq<Data>, capacity: nat, now: nat, samples: seq<Data>)
    : (Periodic, seq<Data>)
    requires |items| <= capacity
    decreases |samples|
  {
    if samples == [] then (p, items)
    else
      var next := UpdateStep(p, items, capacity, true, now, Some(samples[0].raw), true);
      ForcedUpdates(next.0, next.1, capacity, now, samples[1..])
  }

  /** While every read and re-arm succeeds, periodic mode stays on and the history
      ends up holding the newest `capacity` of the old contents and the new samples. */
  lemma {:induction false} ForcedUpdatesKeepNewest(p: Periodic, items: seq<Data>, capacity: nat,
                                                   now: nat, samples: seq<Data>)
    requires p.active && |items| <= capacity
    ensures ForcedUpdates(p, items, capacity, now, samples).0.active
    ensures ForcedUpdates(p, items, capacity, now, samples).1 == Newest(items + samples, capacity)
    decreases |samples|
  {
    if samples == [] {
      assert items + samples == items;
    } else {
      var next := UpdateStep(p, items, capacity, true, now, Some(samples[0].raw), true);
      assert next.1 == Push(items, samples[0], capacity);
      ForcedUpdatesKeepNewest(next.0, next.1, capacity, now, samples[1..]);
      PushAllKeepsNewest(items, samples, capacity);
      PushAllKeepsNewest(next.1, samples[1..], capacity);
    }
  }

  /** The wait before draining, in the 32-bit unsigned arithmetic of the target:
      the interval minus the time since the last sample, clamped to the interval. */
  function DrainWait(interval: nat, now: nat, updatedAt: nat): (w: nat)
    ensures w <= interval
    ensures interval < U32_MODULUS && updatedAt <= now && now - updatedAt <= interval
            ==> w == interval - (now - updatedAt)
    ensures interval < U32_MODULUS && updatedAt <= now < U32_MODULUS && now - updatedAt > interval
            ==> w == interval
  {
    var elapsed := (now - updatedAt) % U32_MODULUS;
    var dms := (interval - elapsed) % U32_MODULUS;
    if dms > interval then interval else dms
  }

  /** Some read of the drain loop succeeds. */
  predicate Drains(answers: nat -> Option<Raw>)
  {
    exists i :: 0 <= i < DRAIN_READS && answers(i).Some?
  }

  /** read_measurement: fill the three bytes with 0xFF, then let the read
      transaction (`reply`) overwrite them; true when the transaction succeeds. */
  method ReadMeasurement(raw: array<Byte>, reply: Option<Raw>) returns (ok: bool)
    requires raw.Length == 3
    modifies raw
    ensures ok <==> reply.Some?
    ensures ok ==> raw[..] == reply.value
    ensures !ok ==> raw[..] == SENTINEL
  {
    for i := 0 to raw.Length
      invariant forall j :: 0 <= j < i ==> raw[j] == 0xFF
    {
      raw[i] := 0xFF;
    }
    match reply
    case None =>
      ok := false;
    case Some(bytes) =>
      for i := 0 to raw.Length
        invariant forall j :: 0 <= j < i ==> raw[j] == bytes[j]
      {
        raw[i] := bytes[i];
      }
      ok := true;
  }

  /** `Data d{}; read_measurement(d)`: a fresh sample read in place. On success it
      holds the transaction's bytes, otherwise the 0xFF pre-fill. */
  method ReadSample(reply: Option<Raw>) returns (ok: bool, d: Data)
    ensures ok <==> reply.Some?
    ensures ok ==> d == Data(reply.value)
    ensures !ok ==> d == Data(SENTINEL)
  {
    var raw := new Byte[3];
    ok := ReadMeasurement(raw, reply);
    d := Data(raw[..]);
  }

  /** The retry loop of stop_periodic_measurement: read into a discarded sample
      until a read succeeds, with the counter starting at DRAIN_RETRIES and
      checked by post-decrement after each failed read. `answers(k)` is the
      outcome of the k-th read. Returns whether a read succeeded and how many
      reads were made. */
  method DrainPending(answers: nat -> Option<Raw>) returns (ok: bool, attempts: nat)
    ensures 1 <= attempts <= DRAIN_READS
    ensures ok <==> Drains(answers)
    ensures ok ==> answers(attempts - 1).Some?
    ensures forall i :: 0 <= i < attempts - 1 ==> answers(i).None?
    ensures !ok ==> attempts == DRAIN_READS
  {
    var cnt: int := DRAIN_RETRIES;
    var discard := new Byte[3];
    ok, attempts := false, 0;
    var again := true;
    while again
      invariant attempts <= DRAIN_READS
      invariant again ==> 0 <= cnt && attempts + cnt + 1 == DRAIN_READS
      invariant !again ==> attempts == DRAIN_READS
      invariant forall i :: 0 <= i < attempts ==> answers(i).None?
      invariant !ok
      decreases DRAIN_READS - attempts
    {
      ok := ReadMeasurement(discard, answers(attempts));
      attempts := attempts + 1;
      if ok {
        return;
      }
      // delay(1): no effect on the model
      again := cnt != 0;
      cnt := if cnt == 0 then U32_MODULUS - 1 else cnt - 1;
    }
  }

  class UnitRCWL9620 {
    const address: Byte
    /** _cfg */
    var cfg: Config
    /** _data: the history, replaced by a new buffer when begin changes its capacity. */
    var data: CircularBuffer<Data>
    var periodic: bool
    var interval: nat
    var latest: nat
    var updated: bool

    ghost predicate Valid()
      reads this, data
    {
      data.Valid()
    }

    /** The adapter fields as one value. */
    function State(): Periodic
      reads this
    {
      Periodic(periodic, interval, latest, updated)
    }

    constructor (address: Byte)
      ensures Valid() && fresh(data)
      ensures this.address == address && cfg == DEFAULT_CONFIG
      ensures data.capacity == INITIAL_CAPACITY && data.items == []
      ensures State() == Periodic(false, 0, 0, false)
    {
      this.address := address;
      cfg := DEFAULT_CONFIG;
      data := new CircularBuffer<Data>(INITIAL_CAPACITY);
      periodic, interval, latest, updated := false, 0, 0, false;
    }

    /** config() */
    function GetConfig(): Config
      reads this
    {
      cfg
    }

    /** config(cfg): the next config() returns `c`; nothing else changes. */
    method SetConfig(c: Config)
      modifies this
      ensures GetConfig() == c
      ensures data == old(data) && State() == old(State())
    {
      cfg := c;
    }

    /** distance(): the oldest sample's distance, or nothing (NaN) when the history is empty. */
    function Distance(): (r: Option<real>)
      reads this, data
      ensures r.None? <==> data.items == []
      ensures r.Some? ==> r.value == Measurement.Distance(data.items[0])
      ensures r.Some? ==> MIN_DISTANCE <= r.value <= MAX_DISTANCE
    {
      if data.Empty() then None else Some(Measurement.Distance(data.Oldest()))
    }

    /** begin(): give the history `storedSize` slots when it has another
        capacity, then start periodic measurement when the configuration asks for it. */
    method Begin(storedSize: nat, now: nat, requestOk: bool) returns (ok: bool)
      requires Valid() && storedSize > 0
      modifies this
      ensures Valid() && cfg == old(cfg)
      ensures storedSize != old(data.capacity) ==>
                fresh(data) && data.capacity == storedSize && data.items == []
      ensures storedSize == old(data.capacity) ==> data == old(data) && data.items == old(data.items)
      ensures !cfg.startPeriodic ==> ok && State() == old(State())
      ensures cfg.startPeriodic ==> (State(), ok) == StartStep(old(State()), cfg.intervalMs, now, requestOk)
    {
      if storedSize != data.capacity {
        data := new CircularBuffer<Data>(storedSize);
      }
      if cfg.startPeriodic {
        ok := StartPeriodicMeasurement(cfg.intervalMs, now, requestOk);
      } else {
        ok := true;
      }
    }

    /** update(force) */
    method Update(force: bool, now: nat, reply: Option<Raw>, rearmOk: bool)
      requires Valid()
      modifies this, data
      ensures Valid() && data == old(data) && cfg == old(cfg)
      ensures (State(), data.items)
              == UpdateStep(old(State()), old(data.items), data.capacity, force, now, reply, rearmOk)
    {
      ghost var expected := UpdateStep(State(), data.items, data.capacity, force, now, reply, rearmOk);
      updated := false;
      if periodic {
        var at := now;
        if force || latest == 0 || at >= latest + interval {
          var d;
          updated, d := ReadSample(reply);
          if updated {
            latest := at;
            data.PushBack(d);
            if !rearmOk {
              periodic := false;
            }
          }
        }
      }
      assert State() == expected.0;
      assert data.items == expected.1;
    }

    /** start_periodic_measurement(interval) */
    method StartPeriodicMeasurement(interval: nat, now: nat, requestOk: bool) returns (ok: bool)
      modifies this
      ensures (State(), ok) == StartStep(old(State()), interval, now, requestOk)
      ensures cfg == old(cfg) && data == old(data)
    {
      if periodic {
        return false;
      }
      periodic := requestOk;
      if periodic {
        this.interval := interval;
        latest := now;
      }
      ok := periodic;
    }

    /** start_periodic_measurement(): start again with the interval already held. */
    method StartPeriodicMeasurementAtCurrentInterval(now: nat, requestOk: bool) returns (ok: bool)
      modifies this
      ensures (State(), ok) == StartStep(old(State()), old(interval), now, requestOk)
      ensures cfg == old(cfg) && data == old(data)
    {
      ok := StartPeriodicMeasurement(interval, now, requestOk);
    }

    /** stop_periodic_measurement(): when periodic, wait for the pending request
        (at most one interval), then drain it; periodic mode ends only when the
        drain succeeds. Returns the result and the wait before the drain. */
    method StopPeriodicMeasurement(now: nat, answers: nat -> Option<Raw>) returns (ok: bool, waitMs: nat)
      modifies this
      ensures cfg == old(cfg) && data == old(data)
      ensures interval == old(interval) && latest == old(latest) && updated == old(updated)
      ensures !old(periodic) ==> !ok && waitMs == 0 && !periodic
      ensures old(periodic) ==> waitMs == DrainWait(interval, now, latest) && waitMs <= interval
      ensures old(periodic) ==> (ok <==> Drains(answers)) && (periodic <==> !ok)
    {
      ok, waitMs := false, 0;
      if periodic {
        var it := interval;
        waitMs := DrainWait(it, now, latest);
        var drained, _ := DrainPending(answers);
        if drained {
          periodic := false;
          ok := true;
        }
      }
    }
  }
}
