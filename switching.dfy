/**
 * What one pass of `updateMOSFETs` (src/main.cpp) does to one port: the mode
 * rules for discharging, charging and safety, followed by the three fault
 * checks that force the switch off. It is stated here as a function on one
 * port record; the controller's loop is proved to compute it port by port.
 */
module Switching {
  import opened Arduino
  import opened Config
  import opened BatteryTypes
  import opened Accumulator
  import opened Logger

  /** The low-voltage check ignores readings at or below 0.1 V (no battery). */
  const NO_BATTERY_VOLTAGE: real := 0.1

  /** Charging counts as complete within 0.1 V of the chemistry's maximum ... */
  const CHARGE_MARGIN: real := 0.1

  /** ... once the current has tapered below 50 mA. */
  const TAPER_CURRENT: real := 0.05

  predicate LowVoltage(v: real) {
    v < MIN_VOLTAGE && v > NO_BATTERY_VOLTAGE
  }

  predicate OverVoltage(v: real) {
    v > MAX_VOLTAGE
  }

  predicate OverCurrent(c: real) {
    Abs(c) > MAX_DISCHARGE_CURRENT
  }

  /** Any of the three fault checks of lines 81-114 fires on this record. */
  predicate Fault(p: PortData) {
    LowVoltage(p.voltage) || OverVoltage(p.voltage) || OverCurrent(p.current)
  }

  /** The charge-termination test of lines 58-59. */
  predicate ChargeComplete(p: PortData) {
    p.voltage >= ConfigFor(p.batteryType).maxVoltage - CHARGE_MARGIN &&
    Abs(p.current) < TAPER_CURRENT
  }

  /** The message the first fault check that fires formats. */
  function FaultMessage(p: PortData): (m: ErrorMessage)
    requires Fault(p)
    ensures LowVoltage(p.voltage) ==> m == VoltageCriticallyLow(p.voltage)
    ensures OverVoltage(p.voltage) ==> m == Overvoltage(p.voltage)
    ensures !LowVoltage(p.voltage) && !OverVoltage(p.voltage) ==> m == Overcurrent(p.current)
  {
    if LowVoltage(p.voltage) then VoltageCriticallyLow(p.voltage)
    else if OverVoltage(p.voltage) then Overvoltage(p.voltage)
    else Overcurrent(p.current)
  }

  /**
   * The outcome of one pass over one port: the new record, the level written
   * to the switch pin, and whether `notifyComplete` and `notifyError` were
   * called for the port.
   */
  datatype Cycle = Cycle(port: PortData, switchOn: bool, notifiesComplete: bool, notifiesError: bool)

  /** Lines 33-77: the mode rules, before any fault check. */
  function ModeRules(p: PortData): (c: Cycle)
    ensures !c.notifiesError
    ensures c.port == p.(status := c.port.status, active := c.port.active)
  {
    if p.mode == Discharging && p.active then
      if !p.ShouldStopDischarge() then Cycle(p.(status := Active), true, false, false)
      else Cycle(p.(status := Complete, active := false), false, p.status != Complete, false)
    else if p.mode == Charging && p.active then
      if ChargeComplete(p) then Cycle(p.(status := Complete, active := false), false, p.status != Complete, false)
      else Cycle(p.(status := Active), false, false, false)
    else if p.mode == Safety then Cycle(p.(active := false, status := Idle), false, false, false)
    else Cycle(p, false, false, false)
  }

  /**
   * One fault check: when it fires it forces the switch off and, unless the
   * port is already in ERROR, sets ERROR, clears `active`, writes the message
   * and notifies.
   */
  function Trip(c: Cycle, fires: bool, msg: ErrorMessage): (r: Cycle)
  {
    if !fires then c
    else if c.port.status != Error then
      Cycle(c.port.(status := Error, active := false, errorMsg := msg), false, c.notifiesComplete, true)
    else c.(switchOn := false)
  }

  /**
   * A check that does not fire changes nothing. One that fires switches off
   * and leaves ERROR; on a port not yet in ERROR it also deactivates, stores
   * its message and notifies, and on a port in ERROR it writes no field.
   * It never touches the completion notice.
   */
  lemma TripEffect(c: Cycle, fires: bool, msg: ErrorMessage)
    ensures !fires ==> Trip(c, fires, msg) == c
    ensures fires ==> !Trip(c, fires, msg).switchOn && Trip(c, fires, msg).port.status == Error
    ensures fires && c.port.status != Error ==>
              Trip(c, fires, msg).port == c.port.(status := Error, active := false, errorMsg := msg) &&
              Trip(c, fires, msg).notifiesError
    ensures fires && c.port.status == Error ==>
              Trip(c, fires, msg).port == c.port && Trip(c, fires, msg).notifiesError == c.notifiesError
    ensures Trip(c, fires, msg).notifiesComplete == c.notifiesComplete
  {
  }

  /** Lines 30-117 for one port: the mode rules, then the three fault checks. */
  function SwitchCycle(p: PortData): (c: Cycle)
  {
    var v := p.voltage;
    var i := p.current;
    Trip(Trip(Trip(ModeRules(p), LowVoltage(v), VoltageCriticallyLow(v)),
              OverVoltage(v), Overvoltage(v)),
         OverCurrent(i), Overcurrent(i))
  }

  /** The mode rules leave a port in ERROR only if it was idle in ERROR outside safety mode. */
  lemma ModeRulesKeepError(p: PortData)
    ensures ModeRules(p).port.status == Error <==> p.status == Error && !p.active && p.mode != Safety
  {
  }

  /**
   * The switch is commanded on exactly for an active discharging port above
   * its cutoff with no fault, and then the port is ACTIVE and stays active.
   */
  lemma SwitchOnExactly(p: PortData)
    ensures SwitchCycle(p).switchOn <==>
              p.mode == Discharging && p.active && p.voltage > p.CutoffVoltage() && !Fault(p)
    ensures SwitchCycle(p).switchOn ==>
              SwitchCycle(p).port.status == Active && SwitchCycle(p).port.active
  {
  }

  /**
   * Any fault forces the switch off. A port that the mode rules did not leave
   * in ERROR goes to ERROR, inactive, with the first fault's message, and is
   * notified; a port already in ERROR is left as the mode rules left it.
   */
  lemma FaultForcesOff(p: PortData)
    requires Fault(p)
    ensures !SwitchCycle(p).switchOn && SwitchCycle(p).port.status == Error
    ensures ModeRules(p).port.status != Error ==>
              !SwitchCycle(p).port.active && SwitchCycle(p).notifiesError &&
              SwitchCycle(p).port.errorMsg == FaultMessage(p)
    ensures ModeRules(p).port.status == Error ==>
              SwitchCycle(p).port == ModeRules(p).port && !SwitchCycle(p).notifiesError
  {
  }

  /** Without a fault the pass is exactly the mode rules, and no error is notified. */
  lemma NoFaultIsModeRules(p: PortData)
    requires !Fault(p)
    ensures SwitchCycle(p) == ModeRules(p)
    ensures !SwitchCycle(p).notifiesError
  {
  }

  /** `notifyError` is called exactly when a fault fires on a port the mode rules left out of ERROR. */
  lemma ErrorNotifiedExactly(p: PortData)
    ensures SwitchCycle(p).notifiesError <==> Fault(p) && ModeRules(p).port.status != Error
  {
  }

  /**
   * Lines 40-50: an active discharging port at or below its cutoff completes
   * and is deactivated (unless a fault takes it to ERROR); `notifyComplete`
   * fires only if it was not already COMPLETE.
   */
  lemma DischargeStops(p: PortData)
    requires p.mode == Discharging && p.active && p.voltage <= p.CutoffVoltage()
    ensures !SwitchCycle(p).switchOn && !SwitchCycle(p).port.active
    ensures SwitchCycle(p).notifiesComplete <==> p.status != Complete
    ensures !Fault(p) ==> SwitchCycle(p).port.status == Complete
  {
  }

  /**
   * Lines 54-70: charging never turns the switch on; without a fault the port
   * is COMPLETE and inactive exactly when the termination test holds, and
   * ACTIVE otherwise.
   */
  lemma ChargingRules(p: PortData)
    requires p.mode == Charging && p.active
    ensures !SwitchCycle(p).switchOn
    ensures SwitchCycle(p).notifiesComplete <==> ChargeComplete(p) && p.status != Complete
    ensures !Fault(p) ==>
              (SwitchCycle(p).port.status == Complete <==> ChargeComplete(p)) &&
              (SwitchCycle(p).port.status == Active <==> !ChargeComplete(p)) &&
              (SwitchCycle(p).port.active <==> !ChargeComplete(p))
  {
  }

  /** Lines 73-77: safety mode deactivates the port and makes it IDLE unless a fault fires. */
  lemma SafetyRules(p: PortData)
    requires p.mode == Safety
    ensures !SwitchCycle(p).switchOn && !SwitchCycle(p).port.active
    ensures !SwitchCycle(p).notifiesComplete
    ensures SwitchCycle(p).port.status == (if Fault(p) then Error else Idle)
  {
  }

  /**
   * `notifyComplete` is called exactly when an active discharging port reaches
   * its cutoff or an active charging port terminates, and it was not COMPLETE.
   */
  lemma CompleteNotifiedExactly(p: PortData)
    ensures SwitchCycle(p).notifiesComplete <==>
              p.status != Complete && p.active &&
              ((p.mode == Discharging && p.voltage <= p.CutoffVoltage()) ||
               (p.mode == Charging && ChargeComplete(p)))
  {
  }

  /**
   * Only `status`, `active` and `errorMsg` are written, the message only by a
   * fault, and validity of the record is kept.
   */
  lemma SwitchCycleFrame(p: PortData)
    ensures SwitchCycle(p).port ==
              p.(status := SwitchCycle(p).port.status, active := SwitchCycle(p).port.active,
                 errorMsg := SwitchCycle(p).port.errorMsg)
    ensures SwitchCycle(p).port.errorMsg != p.errorMsg ==> Fault(p)
    ensures SwitchCycle(p).port.active ==> p.active
    ensures p.Valid() ==> SwitchCycle(p).port.Valid()
  {
  }

  /**
   * Among simultaneous faults the first check wins: a voltage fault hides an
   * overcurrent, because the later checks only write while status is not ERROR.
   */
  lemma FirstFaultWins(p: PortData)
    requires LowVoltage(p.voltage) || OverVoltage(p.voltage)
    requires OverCurrent(p.current)
    requires ModeRules(p).port.status != Error
    ensures SwitchCycle(p).port.errorMsg != Overcurrent(p.current)
    ensures SwitchCycle(p).port.errorMsg == VoltageCriticallyLow(p.voltage) ||
            SwitchCycle(p).port.errorMsg == Overvoltage(p.voltage)
  {
    FaultForcesOff(p);
  }

  /**
   * A second pass over the result of a pass with the same readings changes
   * nothing more, except in safety mode under a fault: there the mode rules
   * turn ERROR back into IDLE, so `notifyError` fires again on every pass.
   */
  lemma SafetyFaultRenotifies(p: PortData)
    requires p.mode == Safety && Fault(p)
    ensures SwitchCycle(p).notifiesError
    ensures SwitchCycle(SwitchCycle(p).port).notifiesError
    ensures SwitchCycle(SwitchCycle(p).port).port == SwitchCycle(p).port
  {
  }

  /**
   * The logger only ever stores medians of slots holding zero or a validated
   * reading, so a record it produced never trips a fault check.
   */
  lemma PlausibleMeasurementsNeverFault(p: PortData)
    requires PlausibleVoltage(p.voltage) && PlausibleCurrent(p.current)
    ensures !Fault(p)
  {
  }

  /** Hence every port state the logger can reach never trips a fault check. */
  lemma LoggedPortsNeverFault(s: PortState)
    requires Plausible(s)
    ensures !Fault(s.data)
    ensures !SwitchCycle(s.data).notifiesError
  {
    PlausibleMeasurementsNeverFault(s.data);
  }

  /**
   * The boot measurement of 0 V lies at or below every cutoff a valid record
   * can hold, so a discharging port activated before its first non-zero
   * filtered voltage completes on the next pass without switching on (unless
   * its current trips the overcurrent check).
   */
  lemma ZeroVoltageDischargeCompletes(p: PortData)
    requires p.Valid() && p.mode == Discharging && p.active && p.voltage == 0.0
    requires !OverCurrent(p.current)
    ensures !SwitchCycle(p).switchOn
    ensures SwitchCycle(p).port.status == Complete && !SwitchCycle(p).port.active
  {
  }

  /**
   * One tick of the discharge scenario: the logger stores the filtered
   * readings of a valid sample and integrates, then the switch pass runs.
   */
  function Tick(p: PortData, voltage: real, current: real, now: Millis): Cycle
  {
    SwitchCycle(Integrated(p.(errorCount := 0, voltage := voltage, current := current,
                              power := voltage * current), now))
  }

  /**
   * A LiFePO4 cell (cutoff 2.5 V) discharged at 1 A with filtered voltages
   * 3.2 V, 2.6 V and 2.4 V on three ticks 500 ms apart: the switch is on for
   * the first two ticks and off on the third, where the port is COMPLETE and
   * inactive; the first tick only seeds the clock, so the charge is that of
   * two 500 ms intervals, 1000 mA x 1000 ms = 5/18 mAh. `Tick` stores the
   * readings as the filtered values, so the logger's five-slot window is
   * taken to be full of them already; from boot the first medians would be
   * 0 V (`Logger.FirstSampleFiltersToZero`).
   */
  lemma LiFePO4DischargeScenario()
    ensures var p0 := NewPortData().(mode := Discharging, batteryType := LiFePO4, active := true);
            var c1 := Tick(p0, 3.2, 1.0, 1000);
            var c2 := Tick(c1.port, 2.6, 1.0, 1500);
            var c3 := Tick(c2.port, 2.4, 1.0, 2000);
            c1.switchOn && c2.switchOn && !c3.switchOn &&
            c3.port.status == Complete && !c3.port.active && c3.notifiesComplete &&
            c3.port.mAh == 5.0 / 18.0
  {
    var p0 := NewPortData().(mode := Discharging, batteryType := LiFePO4, active := true);
    var c1 := Tick(p0, 3.2, 1.0, 1000);
    assert c1.port.mAh == 0.0 && c1.port.lastUpdate == 1000 && c1.switchOn;
    var c2 := Tick(c1.port, 2.6, 1.0, 1500);
    assert Elapsed(1500, 1000) == 500;
    assert c2.port.mAh == 5.0 / 36.0 && c2.port.lastUpdate == 1500 && c2.switchOn;
    var c3 := Tick(c2.port, 2.4, 1.0, 2000);
    assert Elapsed(2000, 1500) == 500;
    assert c3.port.mAh == 5.0 / 18.0;
  }
}
