/**
 * The per-port record shared by every component of the charger, and the
 * static chemistry table (Include/BatteryTypes.h).
 */
module BatteryTypes {
  import opened Arduino
  import opened Config

  /** Battery chemistries; the C enumeration numbers them 0, 1, 2. */
  datatype BatteryType = LiIon | LiFePO4 | LiPo {
    function Index(): (n: nat)
      ensures n <= 2
    {
      match this
      case LiIon => 0
      case LiFePO4 => 1
      case LiPo => 2
    }
  }

  /** The cast `(BatteryType)n` for the values the C enumeration defines. */
  function BatteryTypeOf(n: int): (t: BatteryType)
    requires 0 <= n <= 2
    ensures t.Index() == n
  {
    if n == 0 then LiIon else if n == 1 then LiFePO4 else LiPo
  }

  /** Operation modes; the C enumeration numbers them 0, 1, 2. */
  datatype OperationMode = Safety | Charging | Discharging {
    function Index(): (n: nat)
      ensures n <= 2
    {
      match this
      case Safety => 0
      case Charging => 1
      case Discharging => 2
    }
  }

  /** The cast `(OperationMode)n` for the values the C enumeration defines. */
  function ModeOf(n: int): (m: OperationMode)
    requires 0 <= n <= 2
    ensures m.Index() == n
  {
    if n == 0 then Safety else if n == 1 then Charging else Discharging
  }

  /** The numbering of modes and chemistries is a bijection onto 0..2. */
  lemma IndexRoundTrips(m: OperationMode, t: BatteryType)
    ensures ModeOf(m.Index()) == m
    ensures BatteryTypeOf(t.Index()) == t
  {
  }

  /** Operational status of a port. */
  datatype PortStatus = Idle | Active | Complete | Error

  /** One row of the chemistry table. */
  datatype BatteryConfig = BatteryConfig(
    cutoffVoltage: real,
    maxVoltage: real,
    nominalVoltage: real,
    name: string)

  /** The table BATTERY_CONFIGS, indexed by chemistry. */
  function ConfigFor(t: BatteryType): (c: BatteryConfig)
    ensures 0.0 < c.cutoffVoltage < c.nominalVoltage < c.maxVoltage
    ensures MIN_VOLTAGE <= c.cutoffVoltage && c.maxVoltage <= MAX_VOLTAGE
  {
    match t
    case LiIon => BatteryConfig(3.0, 4.2, 3.7, "Li-ion")
    case LiFePO4 => BatteryConfig(2.5, 3.65, 3.2, "LiFePO4")
    case LiPo => BatteryConfig(3.0, 4.2, 3.7, "LiPo")
  }

  /** The table's cutoffs are the per-chemistry defaults of the configuration. */
  lemma TableCutoffsMatchConfig()
    ensures ConfigFor(LiIon).cutoffVoltage == LIION_CUTOFF
    ensures ConfigFor(LiFePO4).cutoffVoltage == LIFEPO4_CUTOFF
    ensures ConfigFor(LiPo).cutoffVoltage == LIPO_CUTOFF
  {
  }

  /**
   * The largest custom cutoff either configuration surface can store: the
   * front panel offers 0..35 tenths of a volt, the web handler 2.0..3.5 V.
   */
  const CUTOFF_SETTING_MAX: real := 3.5

  /**
   * The text held in `errorMsg`: which message was formatted and the value it
   * formatted. `NoMessage` is the empty string.
   */
  datatype ErrorMessage =
    | NoMessage
    | SensorNotFound
    | InvalidReadings
    | VoltageCriticallyLow(volts: real)
    | Overvoltage(volts: real)
    | Overcurrent(amps: real)

  /** The operator's configuration of a port. */
  datatype Settings = Settings(
    mode: OperationMode,
    batteryType: BatteryType,
    customCutoff: real,
    useCustomCutoff: bool)

  /** The latest filtered measurements of a port. */
  datatype Measurements = Measurements(voltage: real, current: real, power: real)

  /** The struct PortData. */
  datatype PortData = PortData(
    // Measurements
    voltage: real,
    current: real,
    mAh: real,
    Wh: real,
    power: real,
    // Configuration
    mode: OperationMode,
    batteryType: BatteryType,
    customCutoff: real,
    useCustomCutoff: bool,
    // Status
    status: PortStatus,
    active: bool,
    startTime: Millis,
    lastUpdate: Millis,
    // Error tracking
    errorCount: int,
    errorMsg: ErrorMessage)
  {
    /**
     * The invariant every writer of a record keeps: non-negative totals, a
     * non-negative error counter and a custom cutoff within what the
     * configuration surfaces can set.
     */
    predicate Valid() {
      mAh >= 0.0 && Wh >= 0.0 && errorCount >= 0 &&
      0.0 <= customCutoff <= CUTOFF_SETTING_MAX
    }

    function Configuration(): Settings {
      Settings(mode, batteryType, customCutoff, useCustomCutoff)
    }

    function Readings(): Measurements {
      Measurements(voltage, current, power)
    }

    /** getCutoffVoltage: the custom cutoff if enabled, else the table's. */
    function CutoffVoltage(): (v: real)
      ensures useCustomCutoff ==> v == customCutoff
      ensures !useCustomCutoff ==> v == ConfigFor(batteryType).cutoffVoltage
      ensures Valid() ==> 0.0 <= v <= CUTOFF_SETTING_MAX
    {
      if useCustomCutoff then customCutoff else ConfigFor(batteryType).cutoffVoltage
    }

    /** shouldStopDischarge: only a discharging port at or below its cutoff. */
    function ShouldStopDischarge(): (stop: bool)
      ensures stop <==> mode == Discharging && voltage <= CutoffVoltage()
    {
      if mode != Discharging then false else voltage <= CutoffVoltage()
    }

    /**
     * reset(): clears the totals and the error state and restarts the session
     * clock; configuration, `active`, the measurements and `lastUpdate` stay.
     */
    function Reset(now: Millis): (r: PortData)
      ensures r.mAh == 0.0 && r.Wh == 0.0 && r.errorCount == 0
      ensures r.errorMsg == NoMessage && r.status == Idle && r.startTime == now
      ensures r.Configuration() == Configuration() && r.active == active
      ensures r.Readings() == Readings() && r.lastUpdate == lastUpdate
      ensures Valid() ==> r.Valid()
    {
      this.(mAh := 0.0, Wh := 0.0, startTime := now, errorCount := 0,
            errorMsg := NoMessage, status := Idle)
    }

    function BatteryName(): string {
      ConfigFor(batteryType).name
    }

    function ModeName(): string {
      match mode
      case Charging => "Charging"
      case Discharging => "Discharging"
      case Safety => "Safety"
    }

    function StatusName(): string {
      match status
      case Idle => "Idle"
      case Active => "Active"
      case Complete => "Complete"
      case Error => "Error"
    }
  }

  /** The default constructor PortData(). */
  function NewPortData(): (p: PortData)
    ensures p.Valid()
    ensures p.mode == Safety && p.status == Idle && !p.active
    ensures p.batteryType == LiIon && !p.useCustomCutoff
    ensures !p.ShouldStopDischarge()
    ensures p.CutoffVoltage() == LIION_CUTOFF && p.customCutoff == LIION_CUTOFF
    ensures p.Readings() == Measurements(0.0, 0.0, 0.0) && p.mAh == 0.0 && p.Wh == 0.0
    ensures p.errorCount == 0 && p.errorMsg == NoMessage
    ensures p.startTime == 0 && p.lastUpdate == 0
  {
    PortData(0.0, 0.0, 0.0, 0.0, 0.0, Safety, LiIon, 3.0, false,
             Idle, false, 0, 0, 0, NoMessage)
  }

  /** Every record of the shared port table keeps the record invariant. */
  ghost predicate AllValid(table: array<PortData>)
    reads table
  {
    forall i :: 0 <= i < table.Length ==> table[i].Valid()
  }

  /** Resetting twice at the same instant is the same as resetting once. */
  lemma ResetIdempotent(p: PortData, now: Millis)
    ensures p.Reset(now).Reset(now) == p.Reset(now)
  {
  }

  /**
   * For a valid record the effective cutoff lies strictly below the voltage
   * at which charging counts as complete, so the discharge and charge
   * thresholds of a chemistry never overlap.
   */
  lemma CutoffBelowChargeTarget(p: PortData)
    requires p.Valid()
    ensures p.CutoffVoltage() < ConfigFor(p.batteryType).maxVoltage - 0.1
  {
  }

  /** Every mode and every status has its own display name. */
  lemma NamesDistinct(p: PortData, q: PortData)
    ensures p.mode != q.mode ==> p.ModeName() != q.ModeName()
    ensures p.status != q.status ==> p.StatusName() != q.StatusName()
    ensures p.batteryType != q.batteryType ==> p.BatteryName() != q.BatteryName()
  {
  }
}
