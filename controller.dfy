/**
 * The top level of src/main.cpp: the global port table, `setup` (switches
 * off, safety defaults, then the front panel, the logger and the web
 * interface), `updateMOSFETs`, `syncUIStates` and one pass of `loop`. The
 * switch pins are an array of levels, true for HIGH.
 */
module Controller {
  import opened Arduino
  import opened Config
  import opened BatteryTypes
  import opened Switching
  import UI
  import Logger
  import SignalFilter
  import Web

  /** syncUIStates runs at most once a second. */
  const SYNC_INTERVAL_MS: nat := 1000

  /** Lines 199-206 of setup: every port to safety mode with the Li-ion defaults. */
  function SafetyDefaults(p: PortData): (r: PortData)
    ensures r.mode == Safety && r.batteryType == LiIon && !r.active && r.status == Idle
    ensures r.customCutoff == LIION_CUTOFF && !r.useCustomCutoff
    ensures r.Readings() == p.Readings() && r.mAh == p.mAh && r.Wh == p.Wh
    ensures r.errorCount == p.errorCount && r.errorMsg == p.errorMsg
    ensures r.startTime == p.startTime && r.lastUpdate == p.lastUpdate
    ensures p.Valid() ==> r.Valid()
  {
    p.(mode := Safety, batteryType := LiIon, active := false, status := Idle,
       customCutoff := LIION_CUTOFF, useCustomCutoff := false)
  }

  /**
   * The defaults of setup are those of the PortData constructor, and a port in
   * that state is never switched on and never notifies anything.
   */
  lemma DefaultsAreInert()
    ensures SafetyDefaults(NewPortData()) == NewPortData()
    ensures !SwitchCycle(NewPortData()).switchOn
    ensures SwitchCycle(NewPortData()) == Cycle(NewPortData(), false, false, false)
  {
  }

  /** The notifications one port's pass sends, in the order the code sends them. */
  function Notices(i: int, c: Cycle): (ns: seq<UI.Notice>)
    ensures |ns| <= 2
    ensures forall k :: 0 <= k < |ns| ==> ns[k].port == i
  {
    (if c.notifiesComplete then [UI.Completed(i)] else []) +
    (if c.notifiesError then [UI.Faulted(i)] else [])
  }

  /**
   * A pass sends a completion notice exactly when its cycle completes and an
   * error notice exactly when it faults, each at most once.
   */
  lemma NoticesContent(i: int, c: Cycle)
    ensures UI.Completed(i) in Notices(i, c) <==> c.notifiesComplete
    ensures UI.Faulted(i) in Notices(i, c) <==> c.notifiesError
    ensures forall a, b :: 0 <= a < b < |Notices(i, c)| ==> Notices(i, c)[a] != Notices(i, c)[b]
    ensures forall k :: 0 <= k < |Notices(i, c)| ==>
              (Notices(i, c)[k].Completed? && c.notifiesComplete) || (Notices(i, c)[k].Faulted? && c.notifiesError)
  {
  }

  /** The cycles of a pass over every record of `table`. */
  ghost function Cycles(table: seq<PortData>): (cs: seq<Cycle>)
    ensures |cs| == |table|
    ensures forall k {:trigger SwitchCycle(table[k])} :: 0 <= k < |table| ==> cs[k] == SwitchCycle(table[k])
  {
    seq(|table|, k requires 0 <= k < |table| => SwitchCycle(table[k]))
  }

  /** A pass keeps every valid record valid. */
  lemma CyclesKeepValid(table: seq<PortData>)
    requires forall k :: 0 <= k < |table| ==> table[k].Valid()
    ensures forall k :: 0 <= k < |table| ==> Cycles(table)[k].port.Valid()
  {
    forall k | 0 <= k < |table| ensures Cycles(table)[k].port.Valid() {
      SwitchCycleFrame(table[k]);
    }
  }

  /** The notifications the cycles of ports 0..n-1 send, in port order. */
  function AllNotices(cs: seq<Cycle>, n: nat): (ns: seq<UI.Notice>)
    requires n <= |cs|
    ensures |ns| <= 2 * n
    ensures forall k :: 0 <= k < |ns| ==> 0 <= ns[k].port < n
  {
    if n == 0 then []
    else AllNotices(cs, n - 1) + Notices(n - 1, cs[n - 1])
  }

  /**
   * The notification log of a pass names a port only if that port's cycle
   * completed or faulted.
   */
  lemma {:induction false} NoticesNameCycles(cs: seq<Cycle>, n: nat, k: int)
    requires n <= |cs| && 0 <= k < |AllNotices(cs, n)|
    ensures cs[AllNotices(cs, n)[k].port].notifiesComplete || cs[AllNotices(cs, n)[k].port].notifiesError
  {
    if n > 0 {
      var prefix := AllNotices(cs, n - 1);
      if k < |prefix| {
        NoticesNameCycles(cs, n - 1, k);
        assert AllNotices(cs, n)[k] == prefix[k];
      } else {
        var ns := Notices(n - 1, cs[n - 1]);
        var x := ns[k - |prefix|];
        NoticesContent(n - 1, cs[n - 1]);
        assert AllNotices(cs, n)[k] == x;
        assert x.port == n - 1;
      }
    }
  }

  /**
   * Each port is notified at most once per kind: a pass cannot report the
   * same completion or the same fault twice.
   */
  lemma {:induction false} NoticesDistinct(cs: seq<Cycle>, n: nat, j: int, k: int)
    requires n <= |cs| && 0 <= j < k < |AllNotices(cs, n)|
    ensures AllNotices(cs, n)[j] != AllNotices(cs, n)[k]
  {
    if n > 0 {
      var prefix := AllNotices(cs, n - 1);
      var ns := Notices(n - 1, cs[n - 1]);
      var all := AllNotices(cs, n);
      assert all == prefix + ns;
      if k < |prefix| {
        NoticesDistinct(cs, n - 1, j, k);
        assert all[j] == prefix[j] && all[k] == prefix[k];
      } else if j < |prefix| {
        assert all[j] == prefix[j] && all[k] == ns[k - |prefix|];
        assert all[j].port < n - 1 && all[k].port == n - 1;
      } else {
        NoticesContent(n - 1, cs[n - 1]);
        assert all[j] == ns[j - |prefix|] && all[k] == ns[k - |prefix|];
      }
    }
  }

  /** The error notification one fault check adds: one when it fires on a port not yet in ERROR. */
  function TripNotice(i: int, c: Cycle, fires: bool): (ns: seq<UI.Notice>)
    ensures |ns| <= 1
  {
    if fires && c.port.status != Error then [UI.Faulted(i)] else []
  }

  /**
   * A fault check adds one error notification exactly when it fires on a
   * port not yet in ERROR; a port that already notified is in ERROR.
   */
  lemma TripNotices(i: int, c: Cycle, fires: bool, msg: ErrorMessage)
    requires c.notifiesError ==> c.port.status == Error
    ensures Notices(i, Trip(c, fires, msg)) == Notices(i, c) + TripNotice(i, c, fires)
    ensures Trip(c, fires, msg).notifiesError ==> Trip(c, fires, msg).port.status == Error
  {
  }

  /** initMOSFETs: every switch driven low. */
  method SwitchesOff() returns (levels: array<bool>)
    ensures fresh(levels) && levels.Length == NUM_PORTS
    ensures forall k :: 0 <= k < NUM_PORTS ==> !levels[k]
  {
    levels := new bool[NUM_PORTS];
    for i := 0 to NUM_PORTS
      invariant forall k :: 0 <= k < i ==> !levels[k]
    {
      levels[i] := false;
    }
  }

  /** The defaults loop of setup: every port in safety mode, Li-ion, idle, inactive. */
  method DefaultTable() returns (table: array<PortData>)
    ensures fresh(table) && table.Length == NUM_PORTS
    ensures forall k :: 0 <= k < NUM_PORTS ==> table[k] == NewPortData()
  {
    table := new PortData[NUM_PORTS](_ => NewPortData());
    for i := 0 to NUM_PORTS
      invariant forall k :: 0 <= k < NUM_PORTS ==> table[k] == NewPortData()
    {
      DefaultsAreInert();
      table[i] := SafetyDefaults(table[i]);
    }
  }

  class Charger {
    /** The global portData[NUM_PORTS]. */
    const ports: array<PortData>
    /** The levels written to MOSFET_PINS. */
    const pins: array<bool>
    const logger: Logger.BatteryLogger
    const ui: UI.PhysicalUI
    const web: Web.WebUI
    /** The statics of syncUIStates. */
    const lastStatus: array<PortStatus>
    var lastSync: Millis

    /** The components share the one port table, and every record is valid. */
    ghost predicate Valid()
      reads this, ports, logger, logger.bufferIndex, ui
    {
      ports.Length == NUM_PORTS && pins.Length == NUM_PORTS && lastStatus.Length == NUM_PORTS &&
      logger.ports == ports && ui.ports == ports && web.ports == ports &&
      logger.Valid() && ui.Valid() && AllValid(ports)
    }

    /**
     * The static initialisers and setup: the constructed records, all switches
     * LOW, the safety defaults, then the front panel, the logger (with the
     * outcome of probing each port's sensor) and the web interface.
     */
    constructor Setup(sensorFound: seq<bool>)
      requires |sensorFound| == NUM_PORTS
      ensures Valid()
      ensures forall i :: 0 <= i < NUM_PORTS ==> !pins[i] && lastStatus[i] == Idle
      ensures forall i :: 0 <= i < NUM_PORTS ==>
                ports[i] == if sensorFound[i] then NewPortData()
                            else NewPortData().(status := Error, errorMsg := SensorNotFound)
      ensures forall i :: 0 <= i < NUM_PORTS ==> logger.Window(i) == SignalFilter.EmptyChannel()
      ensures logger.lastSampleTime == 0 && web.lastUpdate == 0 && lastSync == 0
      ensures ui.currentMenu == UI.Main && ui.notifications == []
      ensures ui.selectedPort == 0 && ui.menuIndex == 0 && ui.maxMenuIndex == 0 &&
              ui.lastMenuActivity == 0
      ensures ui.encoderPos == 0 && ui.lastEncoderPos == 0 && !ui.buttonPressed &&
              ui.lastButtonPress == 0
      ensures ui.lastRefresh == 0 && ui.displayNeedsUpdate
      ensures ui.currentBeep == UI.NoBeep && ui.beepStartTime == 0 && !ui.beepActive &&
              ui.toneFrequency == 0
      ensures web.broadcasts == []
    {
      var levels := SwitchesOff();
      var table := DefaultTable();
      var panel := new UI.PhysicalUI(table);
      var log := new Logger.BatteryLogger(table);
      var seen := new PortStatus[NUM_PORTS](_ => Idle);
      ports := table;
      pins := levels;
      ui := panel;
      logger := log;
      lastStatus := seen;
      lastSync := 0;
      web := new Web.WebUI(table);
      new;
      var _ := logger.Begin(sensorFound);
    }

    /**
     * Lines 31-77 of updateMOSFETs for port i: the mode rules, returning the
     * `shouldBeOn` flag they leave.
     */
    method ApplyModeRules(i: int, now: Millis) returns (shouldBeOn: bool)
      requires ports.Length == NUM_PORTS && 0 <= i < NUM_PORTS
      modifies ports, ui`currentBeep, ui`beepStartTime, ui`beepActive, ui`toneFrequency,
               ui`displayNeedsUpdate, ui`notifications
      ensures ports[i] == ModeRules(old(ports[i])).port
      ensures forall k :: 0 <= k < NUM_PORTS && k != i ==> ports[k] == old(ports[k])
      ensures shouldBeOn == ModeRules(old(ports[i])).switchOn
      ensures ui.notifications == old(ui.notifications) + Notices(i, ModeRules(old(ports[i])))
      ensures UI.Announced(old(ui.SignalOf()), ui.SignalOf(), Notices(i, ModeRules(old(ports[i]))), now)
    {
      shouldBeOn := false;
      var previousStatus := ports[i].status;

      if ports[i].mode == Discharging && ports[i].active {
        if !ports[i].ShouldStopDischarge() {
          shouldBeOn := true;
          ports[i] := ports[i].(status := Active);
        } else {
          shouldBeOn := false;
          ports[i] := ports[i].(status := Complete);
          ports[i] := ports[i].(active := false);
          if previousStatus != Complete {
            ui.NotifyComplete(i, now);
          }
        }
      }

      if ports[i].mode == Charging && ports[i].active {
        shouldBeOn := false;
        var maxV := ConfigFor(ports[i].batteryType).maxVoltage;
        if ports[i].voltage >= maxV - CHARGE_MARGIN && Abs(ports[i].current) < TAPER_CURRENT {
          ports[i] := ports[i].(status := Complete);
          ports[i] := ports[i].(active := false);
          if previousStatus != Complete {
            ui.NotifyComplete(i, now);
          }
        } else {
          ports[i] := ports[i].(status := Active);
        }
      }

      if ports[i].mode == Safety {
        shouldBeOn := false;
        ports[i] := ports[i].(active := false);
        ports[i] := ports[i].(status := Idle);
      }
    }

    /**
     * One fault check of updateMOSFETs (lines 81-90, 93-102 or 105-114),
     * applied to the pass `c` computed so far: when it fires the switch is
     * forced off and, unless port i is already in ERROR, the port goes to
     * ERROR, inactive, with the message, and the front panel is notified.
     */
    method CheckFault(i: int, fires: bool, msg: ErrorMessage, shouldBeOn: bool, now: Millis,
                      ghost c: Cycle, ghost log: seq<UI.Notice>, ghost signal: UI.Signal)
      returns (on: bool)
      requires ports.Length == NUM_PORTS && 0 <= i < NUM_PORTS
      requires ports[i] == c.port && shouldBeOn == c.switchOn
      requires c.notifiesError ==> c.port.status == Error
      requires ui.notifications == log + Notices(i, c)
      requires UI.Announced(signal, ui.SignalOf(), Notices(i, c), now)
      modifies ports, ui`currentBeep, ui`beepStartTime, ui`beepActive, ui`toneFrequency,
               ui`displayNeedsUpdate, ui`notifications
      ensures ports[i] == Trip(c, fires, msg).port && on == Trip(c, fires, msg).switchOn
      ensures Trip(c, fires, msg).notifiesError ==> Trip(c, fires, msg).port.status == Error
      ensures forall k :: 0 <= k < NUM_PORTS && k != i ==> ports[k] == old(ports[k])
      ensures ui.notifications == log + Notices(i, Trip(c, fires, msg))
      ensures UI.Announced(old(ui.SignalOf()), ui.SignalOf(), TripNotice(i, c, fires), now)
      ensures UI.Announced(signal, ui.SignalOf(), Notices(i, Trip(c, fires, msg)), now)
    {
      TripNotices(i, c, fires, msg);
      ghost var before := ui.SignalOf();
      on := shouldBeOn;
      if fires {
        on := false;
        if ports[i].status != Error {
          ports[i] := ports[i].(status := Error);
          ports[i] := ports[i].(active := false);
          ports[i] := ports[i].(errorMsg := msg);
          ui.NotifyError(i, now);
        }
      }
      UI.AnnouncedChain(signal, before, ui.SignalOf(), Notices(i, c), TripNotice(i, c, fires), now);
    }

    /**
     * updateMOSFETs for port i: the mode rules, the three fault checks in
     * source order, then the pin write.
     */
    method UpdatePortSwitch(i: int, now: Millis, ghost table: seq<PortData>)
      requires ports.Length == NUM_PORTS && pins.Length == NUM_PORTS && 0 <= i < NUM_PORTS
      requires |table| == NUM_PORTS && ports[i] == table[i]
      modifies ports, pins, ui`currentBeep, ui`beepStartTime, ui`beepActive, ui`toneFrequency,
               ui`displayNeedsUpdate, ui`notifications
      ensures ports[i] == Cycles(table)[i].port && pins[i] == Cycles(table)[i].switchOn
      ensures forall k :: 0 <= k < NUM_PORTS && k != i ==> ports[k] == old(ports[k])
      ensures forall k :: 0 <= k < NUM_PORTS && k != i ==> pins[k] == old(pins[k])
      ensures ui.notifications == old(ui.notifications) + Notices(i, Cycles(table)[i])
      ensures UI.Announced(old(ui.SignalOf()), ui.SignalOf(), Notices(i, Cycles(table)[i]), now)
    {
      ghost var p := ports[i];
      ghost var log := ui.notifications;
      ghost var s0 := ui.SignalOf();
      var shouldBeOn := ApplyModeRules(i, now);
      ghost var c0 := ModeRules(p);

      var v := ports[i].voltage;
      var a := ports[i].current;
      shouldBeOn := CheckFault(i, LowVoltage(v), VoltageCriticallyLow(v), shouldBeOn, now, c0, log, s0);
      ghost var c1 := Trip(c0, LowVoltage(v), VoltageCriticallyLow(v));
      shouldBeOn := CheckFault(i, OverVoltage(v), Overvoltage(v), shouldBeOn, now, c1, log, s0);
      ghost var c2 := Trip(c1, OverVoltage(v), Overvoltage(v));
      shouldBeOn := CheckFault(i, OverCurrent(a), Overcurrent(a), shouldBeOn, now, c2, log, s0);
      ghost var c3 := Trip(c2, OverCurrent(a), Overcurrent(a));
      assert v == p.voltage && a == p.current;
      assert c3 == SwitchCycle(table[i]);

      pins[i] := shouldBeOn;
    }

    /** The loop of updateMOSFETs: every port gets its pass, in port order. */
    method SwitchAll(now: Millis)
      requires ports.Length == NUM_PORTS && pins.Length == NUM_PORTS
      modifies ports, pins, ui`currentBeep, ui`beepStartTime, ui`beepActive, ui`toneFrequency,
               ui`displayNeedsUpdate, ui`notifications
      ensures forall i :: 0 <= i < NUM_PORTS ==>
                ports[i] == Cycles(old(ports[..]))[i].port && pins[i] == Cycles(old(ports[..]))[i].switchOn
      ensures ui.notifications == old(ui.notifications) + AllNotices(Cycles(old(ports[..])), ports.Length)
      ensures UI.Announced(old(ui.SignalOf()), ui.SignalOf(), AllNotices(Cycles(old(ports[..])), ports.Length), now)
    {
      ghost var table := ports[..];
      ghost var cs := Cycles(table);
      ghost var log0, signal0 := ui.notifications, ui.SignalOf();
      for i := 0 to NUM_PORTS
        invariant SwitchedUpTo(i, table, cs, log0, signal0, now)
      {
        SwitchNext(i, now, table, cs, log0, signal0);
      }
    }

    /**
     * The loop invariant of updateMOSFETs after ports 0..i-1: those ports and
     * pins hold their pass's result, the others are untouched, their notices
     * are logged in port order, and the panel shows the last one.
     */
    ghost predicate SwitchedUpTo(i: int, table: seq<PortData>, cs: seq<Cycle>, log0: seq<UI.Notice>,
                                 signal0: UI.Signal, now: Millis)
      reads ports, pins, ui
    {
      ports.Length == NUM_PORTS && pins.Length == NUM_PORTS && |table| == NUM_PORTS &&
      cs == Cycles(table) && 0 <= i <= NUM_PORTS &&
      (forall k :: 0 <= k < i ==> ports[k] == cs[k].port && pins[k] == cs[k].switchOn) &&
      (forall k :: i <= k < NUM_PORTS ==> ports[k] == table[k]) &&
      ui.notifications == log0 + AllNotices(cs, i) &&
      UI.Announced(signal0, ui.SignalOf(), AllNotices(cs, i), now)
    }

    /** One iteration of the loop of updateMOSFETs, from port i to port i + 1. */
    method SwitchNext(i: int, now: Millis, ghost table: seq<PortData>, ghost cs: seq<Cycle>,
                      ghost log0: seq<UI.Notice>, ghost signal0: UI.Signal)
      requires i < NUM_PORTS && SwitchedUpTo(i, table, cs, log0, signal0, now)
      modifies ports, pins, ui`currentBeep, ui`beepStartTime, ui`beepActive, ui`toneFrequency,
               ui`displayNeedsUpdate, ui`notifications
      ensures SwitchedUpTo(i + 1, table, cs, log0, signal0, now)
    {
      ghost var s := ui.SignalOf();
      UpdatePortSwitch(i, now, table);
      UI.AnnouncedChain(signal0, s, ui.SignalOf(), AllNotices(cs, i), Notices(i, cs[i]), now);
    }

    /**
     * updateMOSFETs: every port gets its pass, in port order; each pass reads
     * and writes only its own record and pin, and keeps it valid.
     */
    method UpdateMosfets(now: Millis)
      requires Valid()
      modifies ports, pins, ui`currentBeep, ui`beepStartTime, ui`beepActive, ui`toneFrequency,
               ui`displayNeedsUpdate, ui`notifications
      ensures Valid()
      ensures forall i :: 0 <= i < NUM_PORTS ==>
                ports[i] == Cycles(old(ports[..]))[i].port && pins[i] == Cycles(old(ports[..]))[i].switchOn
      ensures ui.notifications == old(ui.notifications) + AllNotices(Cycles(old(ports[..])), ports.Length)
      ensures UI.Announced(old(ui.SignalOf()), ui.SignalOf(), AllNotices(Cycles(old(ports[..])), ports.Length), now)
    {
      ghost var table := ports[..];
      CyclesKeepValid(table);
      SwitchAll(now);
    }

    /**
     * syncUIStates: at most once a second, record every port's status and ask
     * the front panel to redraw if any of them changed since the last record.
     */
    method SyncUIStates(now: Millis)
      requires Valid()
      modifies this`lastSync, lastStatus, ui`displayNeedsUpdate
      ensures Valid()
      ensures Elapsed(now, old(lastSync)) < SYNC_INTERVAL_MS ==>
                lastSync == old(lastSync) && lastStatus[..] == old(lastStatus[..]) &&
                ui.displayNeedsUpdate == old(ui.displayNeedsUpdate)
      ensures Elapsed(now, old(lastSync)) >= SYNC_INTERVAL_MS ==>
                lastSync == now &&
                (forall i :: 0 <= i < NUM_PORTS ==> lastStatus[i] == ports[i].status) &&
                (ui.displayNeedsUpdate <==>
                   old(ui.displayNeedsUpdate) ||
                   exists i :: 0 <= i < NUM_PORTS && old(lastStatus[i]) != ports[i].status)
    {
      if Elapsed(now, lastSync) < SYNC_INTERVAL_MS {
        return;
      }
      lastSync := now;
      for i := 0 to NUM_PORTS
        invariant Valid() && lastSync == now
        invariant forall k :: 0 <= k < i ==> lastStatus[k] == ports[k].status
        invariant forall k :: i <= k < NUM_PORTS ==> lastStatus[k] == old(lastStatus[k])
        invariant ui.displayNeedsUpdate <==>
                    old(ui.displayNeedsUpdate) ||
                    exists k :: 0 <= k < i && old(lastStatus[k]) != ports[k].status
      {
        if ports[i].status != lastStatus[i] {
          ui.ForceRedraw();
          lastStatus[i] := ports[i].status;
        }
      }
    }

    /** logger->update() within the loop; the records it writes stay valid. */
    method Sample(now: Millis, raw: seq<Logger.Reading>)
      requires Valid() && |raw| == NUM_PORTS
      modifies logger, ports, logger.voltageBuffer, logger.currentBuffer, logger.bufferIndex
      ensures Valid()
      ensures Elapsed(now, old(logger.lastSampleTime)) < SAMPLE_INTERVAL_MS ==>
                ports[..] == old(ports[..])
      ensures Elapsed(now, old(logger.lastSampleTime)) >= SAMPLE_INTERVAL_MS ==>
                forall i :: 0 <= i < NUM_PORTS ==>
                  logger.StateOf(i) == if old(ports[i]).active
                                       then Logger.Sampled(old(logger.StateOf(i)), raw[i].voltage, raw[i].current, now)
                                       else old(logger.StateOf(i))
    {
      logger.Update(now, raw);
      forall i | 0 <= i < NUM_PORTS ensures ports[i].Valid() {
        if old(ports[i]).active {
          Logger.SampledPreservesValid(old(logger.StateOf(i)), raw[i].voltage, raw[i].current, now);
        }
        assert logger.StateOf(i).data == ports[i];
      }
    }

    /** physicalUI->update() within the loop. */
    method Panel(now: Millis)
      requires Valid()
      modifies ports, ui
      ensures Valid()
    {
      ui.Update(now);
    }

    /**
     * One pass of loop: sample, switch, front panel, web broadcast and sync,
     * with the raw readings of this pass as an input. Every component keeps
     * its invariant and every record stays valid.
     */
    method Loop(now: Millis, raw: seq<Logger.Reading>)
      requires Valid() && |raw| == NUM_PORTS
      modifies this, ports, pins, lastStatus, logger, logger.voltageBuffer, logger.currentBuffer,
               logger.bufferIndex, ui, web
      ensures Valid()
    {
      Sample(now, raw);
      UpdateMosfets(now);
      Panel(now);
      web.Update(now);
      SyncUIStates(now);
    }
  }
}
