/**
 * The two device variants of the RCWL9620 unit: UnitUltraSonicI2C and
 * UnitUltraSonicIO. Each owns a UnitRCWL9620 and guards its begin with the
 * kind of adapter the unit is attached through; a mismatch fails begin before
 * the shared begin runs, so neither the history nor the periodic state changes.
 */
module UltraSonic {
  import opened Measurement
  import opened Rcwl9620

  /** The kind of connection the framework attached the unit through. */
  datatype AdapterType = I2C | GPIO | OtherAdapter

  /** Address of the I2C variant. */
  const I2C_ADDRESS: Byte := 0x57
  /** Address of the GPIO variant (it has no bus address). */
  const IO_ADDRESS: Byte := 0x00
  /** minimum_interval() of the GPIO variant (ms). */
  const IO_MINIMUM_INTERVAL_MS: nat := 50

  class UnitUltraSonicI2C {
    const unit: UnitRCWL9620

    constructor ()
      ensures fresh(unit) && fresh(unit.data) && unit.Valid()
      ensures unit.address == I2C_ADDRESS && unit.cfg == DEFAULT_CONFIG
      ensures unit.data.capacity == INITIAL_CAPACITY && unit.data.items == []
      ensures unit.State() == Periodic(false, 0, 0, false)
    {
      unit := new UnitRCWL9620(I2C_ADDRESS);
    }

    /** begin(): only through an I2C adapter; then exactly UnitRCWL9620's begin. */
    method Begin(adapter: AdapterType, storedSize: nat, now: nat, requestOk: bool) returns (ok: bool)
      requires unit.Valid()
      requires adapter == I2C ==> storedSize > 0
      modifies unit
      ensures unit.Valid() && unit.cfg == old(unit.cfg)
      ensures adapter != I2C ==> !ok && unchanged(unit) && unit.data.items == old(unit.data.items)
      ensures adapter == I2C && storedSize != old(unit.data.capacity) ==>
                fresh(unit.data) && unit.data.capacity == storedSize && unit.data.items == []
      ensures adapter == I2C && storedSize == old(unit.data.capacity) ==>
                unit.data == old(unit.data) && unit.data.items == old(unit.data.items)
      ensures adapter == I2C && !unit.cfg.startPeriodic ==> ok && unit.State() == old(unit.State())
      ensures adapter == I2C && unit.cfg.startPeriodic ==>
                (unit.State(), ok) == StartStep(old(unit.State()), unit.cfg.intervalMs, now, requestOk)
    {
      if adapter != I2C {
        return false;
      }
      ok := unit.Begin(storedSize, now, requestOk);
    }
  }

  class UnitUltraSonicIO {
    const unit: UnitRCWL9620

    constructor ()
      ensures fresh(unit) && fresh(unit.data) && unit.Valid()
      ensures unit.address == IO_ADDRESS && unit.cfg == DEFAULT_CONFIG
      ensures unit.data.capacity == INITIAL_CAPACITY && unit.data.items == []
      ensures unit.State() == Periodic(false, 0, 0, false)
    {
      unit := new UnitRCWL9620(IO_ADDRESS);
    }

    /** minimum_interval(): lower than the base unit's documented floor, and met by the default interval. */
    function MinimumInterval(): (ms: nat)
      ensures 0 < ms < DOCUMENTED_MIN_INTERVAL_MS
      ensures ms <= DEFAULT_CONFIG.intervalMs
    {
      IO_MINIMUM_INTERVAL_MS
    }

    /** begin(): only through a GPIO adapter; then exactly UnitRCWL9620's begin.
        Whether the unit sits behind a PbHub (`parentIsPbHub`) only selects an
        extra log message and never changes the outcome. */
    method Begin(adapter: AdapterType, parentIsPbHub: bool, storedSize: nat, now: nat, requestOk: bool)
      returns (ok: bool)
      requires unit.Valid()
      requires adapter == GPIO ==> storedSize > 0
      modifies unit
      ensures unit.Valid() && unit.cfg == old(unit.cfg)
      ensures adapter != GPIO ==> !ok && unchanged(unit) && unit.data.items == old(unit.data.items)
      ensures adapter == GPIO && storedSize != old(unit.data.capacity) ==>
                fresh(unit.data) && unit.data.capacity == storedSize && unit.data.items == []
      ensures adapter == GPIO && storedSize == old(unit.data.capacity) ==>
                unit.data == old(unit.data) && unit.data.items == old(unit.data.items)
      ensures adapter == GPIO && !unit.cfg.startPeriodic ==> ok && unit.State() == old(unit.State())
      ensures adapter == GPIO && unit.cfg.startPeriodic ==>
                (unit.State(), ok) == StartStep(old(unit.State()), unit.cfg.intervalMs, now, requestOk)
    {
      if adapter != GPIO {
        // behind a PbHub (parentIsPbHub) the only difference is one more log line
        return false;
      }
      ok := unit.Begin(storedSize, now, requestOk);
    }
  }
}
