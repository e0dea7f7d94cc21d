/**
 * The charge/energy integrator of src/Logger.cpp: `updateAccumulators` and the
 * timestamp guards of `updatePort` that decide whether a step is integrated at
 * all. They are stated here as functions on one port record; the logger's
 * methods are proved to compute them.
 */
module Accumulator {
  import opened Arduino
  import opened BatteryTypes

  /** Milliseconds per hour: the `deltaTime / 3600000.0` conversion. */
  const MS_PER_HOUR: real := 3600000.0

  /** A step longer than this many hours is discarded by `updateAccumulators`. */
  const MAX_STEP_HOURS: real := 0.1

  /** A gap longer than this many milliseconds only resynchronises `lastUpdate`. */
  const MAX_STEP_MS: nat := 10000

  /** The `deltaHours` of a step of `dt` milliseconds. */
  function DeltaHours(dt: Millis): (h: real)
    ensures h >= 0.0
    ensures h > MAX_STEP_HOURS <==> dt > 360000
  {
    dt as real / MS_PER_HOUR
  }

  /** `if (x < 0) x = 0`. */
  function ClampNonNegative(x: real): (r: real)
    ensures r >= 0.0
    ensures x >= 0.0 ==> r == x
    ensures x < 0.0 ==> r == 0.0
  {
    if x < 0.0 then 0.0 else x
  }

  /** True when `updateAccumulators` integrates a step of `dt` milliseconds. */
  predicate Integrates(dt: Millis) {
    dt != 0 && DeltaHours(dt) <= MAX_STEP_HOURS
  }

  /** The charge in mAh that a current (A) moves in `dt` milliseconds. */
  function ChargeOf(current: real, dt: Millis): real {
    (current * 1000.0) * DeltaHours(dt)
  }

  /** The energy in Wh that a voltage and current deliver in `dt` milliseconds. */
  function EnergyOf(voltage: real, current: real, dt: Millis): real {
    (voltage * current) * DeltaHours(dt)
  }

  /**
   * updateAccumulators: a step of zero length or of more than 0.1 h changes
   * nothing; otherwise the signed charge and energy of the step are added and
   * each total is clamped at zero. Only mAh and Wh are written.
   */
  function Accumulated(p: PortData, voltage: real, current: real, dt: Millis): (r: PortData)
    ensures !Integrates(dt) ==> r == p
    ensures Integrates(dt) ==>
              r.mAh == ClampNonNegative(p.mAh + ChargeOf(current, dt)) &&
              r.Wh == ClampNonNegative(p.Wh + EnergyOf(voltage, current, dt))
    ensures r == p.(mAh := r.mAh, Wh := r.Wh)
    ensures p.Valid() ==> r.Valid()
  {
    if dt == 0 then p
    else if DeltaHours(dt) > MAX_STEP_HOURS then p
    else
      var mAh := p.mAh + (current * 1000.0) * DeltaHours(dt);
      var wh := p.Wh + (voltage * current) * DeltaHours(dt);
      p.(mAh := if mAh < 0.0 then 0.0 else mAh, Wh := if wh < 0.0 then 0.0 else wh)
  }

  /**
   * Lines 119-137 of updatePort, after the filtered values were stored: the
   * first sample only seeds `lastUpdate`; a gap of more than 10 s only
   * resynchronises it; otherwise the step is integrated with the stored
   * filtered voltage and current and `lastUpdate` moves to now.
   */
  function Integrated(p: PortData, now: Millis): (r: PortData)
    ensures r.lastUpdate == now
    ensures r == p.(mAh := r.mAh, Wh := r.Wh, lastUpdate := now)
    ensures p.lastUpdate == 0 ==> r.mAh == p.mAh && r.Wh == p.Wh
    ensures p.lastUpdate != 0 && Elapsed(now, p.lastUpdate) > MAX_STEP_MS ==>
              r.mAh == p.mAh && r.Wh == p.Wh
    ensures p.lastUpdate != 0 && Elapsed(now, p.lastUpdate) == 0 ==>
              r.mAh == p.mAh && r.Wh == p.Wh
    ensures var dt := Elapsed(now, p.lastUpdate);
            p.lastUpdate != 0 && 0 < dt <= MAX_STEP_MS ==>
              r.mAh == ClampNonNegative(p.mAh + ChargeOf(p.current, dt)) &&
              r.Wh == ClampNonNegative(p.Wh + EnergyOf(p.voltage, p.current, dt))
    ensures p.Valid() ==> r.Valid()
  {
    if p.lastUpdate == 0 then p.(lastUpdate := now)
    else
      var dt := Elapsed(now, p.lastUpdate);
      if dt > MAX_STEP_MS then p.(lastUpdate := now)
      else
        HourGuardSubsumed(dt);
        Accumulated(p, p.voltage, p.current, dt).(lastUpdate := now)
  }

  /**
   * Every step that passes the 10 s guard of updatePort also passes the 0.1 h
   * guard of updateAccumulators, so the latter only ever rejects zero-length
   * steps when called from updatePort.
   */
  lemma HourGuardSubsumed(dt: Millis)
    requires dt <= MAX_STEP_MS
    ensures Integrates(dt) <==> dt != 0
  {
  }

  /**
   * While the port delivers charge (non-negative current and voltage) the
   * clamps never fire: each total grows by exactly the step's charge and
   * energy.
   */
  lemma DischargeAccumulatesExactly(p: PortData, voltage: real, current: real, dt: Millis)
    requires p.Valid() && voltage >= 0.0 && current >= 0.0 && Integrates(dt)
    ensures Accumulated(p, voltage, current, dt).mAh == p.mAh + ChargeOf(current, dt)
    ensures Accumulated(p, voltage, current, dt).Wh == p.Wh + EnergyOf(voltage, current, dt)
    ensures Accumulated(p, voltage, current, dt).mAh >= p.mAh
  {
    assert current * 1000.0 >= 0.0;
    assert voltage * current >= 0.0;
  }

  /**
   * The accumulator adds the signed current: a negative (charging) current
   * lowers the mAh total, down to zero, rather than adding its magnitude.
   */
  lemma NegativeCurrentLowersCharge(p: PortData, voltage: real, current: real, dt: Millis)
    requires p.Valid() && current < 0.0 && Integrates(dt)
    ensures Accumulated(p, voltage, current, dt).mAh < p.mAh ||
            Accumulated(p, voltage, current, dt).mAh == 0.0
  {
    assert DeltaHours(dt) > 0.0;
    assert ChargeOf(current, dt) < 0.0 by {
      assert current * 1000.0 < 0.0;
    }
  }

  /**
   * Integration is additive: two consecutive steps at a constant non-negative
   * voltage and current total the same as one step of their combined length.
   */
  lemma StepsAdd(p: PortData, voltage: real, current: real, d1: Millis, d2: Millis)
    requires p.Valid() && voltage >= 0.0 && current >= 0.0
    requires d1 != 0 && d2 != 0 && d1 + d2 <= 360000
    ensures Accumulated(Accumulated(p, voltage, current, d1), voltage, current, d2) ==
            Accumulated(p, voltage, current, d1 + d2)
  {
    var q := Accumulated(p, voltage, current, d1);
    DischargeAccumulatesExactly(p, voltage, current, d1);
    DischargeAccumulatesExactly(q, voltage, current, d2);
    DischargeAccumulatesExactly(p, voltage, current, d1 + d2);
    assert DeltaHours(d1) + DeltaHours(d2) == DeltaHours(d1 + d2);
    assert ChargeOf(current, d1) + ChargeOf(current, d2) == ChargeOf(current, d1 + d2) by {
      assert (current * 1000.0) * DeltaHours(d1) + (current * 1000.0) * DeltaHours(d2)
          == (current * 1000.0) * (DeltaHours(d1) + DeltaHours(d2));
    }
    assert EnergyOf(voltage, current, d1) + EnergyOf(voltage, current, d2)
        == EnergyOf(voltage, current, d1 + d2) by {
      assert (voltage * current) * DeltaHours(d1) + (voltage * current) * DeltaHours(d2)
          == (voltage * current) * (DeltaHours(d1) + DeltaHours(d2));
    }
  }
}
